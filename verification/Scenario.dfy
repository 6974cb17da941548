/**
 The scenario engine: each tick polls exogenous events, lets the attacker act, then the defender, and applies
 their responses to the event bus, the state and the report. Agents, the event source and the environment are
 parameters: the first two are functions of what they are shown, the environment of the calls made to it so far.
 */
module Scenario {
  import opened Basics
  import opened Text
  import opened Conditions

  datatype Response = Response(id: string, description: string, action: string, payload: map<string, string>)

  datatype Record = Record(tick: nat, role: string, responseId: string, action: string, target: string)

  datatype State = State(
    tick: nat, checkpoints: set<string>, flags: map<string, string>, fired: set<string>, noise: nat)

  datatype Report = Report(timeline: seq<Event>, fired: seq<string>, applied: seq<Record>, blocked: seq<string>)

  datatype EnvCall = EnvCall(action: string, target: string, payload: map<string, string>)

  /** `calls` is what the environment has been asked to do. */
  datatype World = World(bus: seq<Event>, state: State, report: Report, calls: seq<EnvCall>)

  type Environment = (seq<EnvCall>, EnvCall) -> Event

  type Agent = (nat, seq<Event>, State) -> Result<seq<Response>, Error>

  datatype Setup = Setup(
    poll: nat -> seq<Event>, environment: Environment, attacker: Option<Agent>, defender: Option<Agent>)

  type Outcome = Result<World, Error>

  const START := World([], State(0, {}, map[], {}, 0), Report([], [], [], []), [])

  function Get(payload: map<string, string>, key: string): string { if key in payload then payload[key] else "" }

  function ViewOf(tick: nat, events: seq<Event>, s: State): View { View(tick, events, s.checkpoints, s.flags) }

  // ---------------------------------------------------------------------------
  // Applying responses.

  /** One `key=value` pair of a `sets` payload; other texts set nothing. */
  function SetPair(text: string): map<string, string> {
    var pair := Strip(text);
    var i := IndexOf(pair, '=');
    if i == |pair| then map[] else map[Strip(pair[..i]) := Strip(pair[i + 1..])]
  }

  function SetsFrom(pairs: seq<string>): map<string, string>
    decreases |pairs|
  {
    if pairs == [] then map[] else SetsFrom(pairs[..|pairs| - 1]) + SetPair(pairs[|pairs| - 1])
  }

  method ParseSets(raw: string) returns (r: map<string, string>)
    ensures r == SetsFrom(SplitOn(raw, ','))
  {
    r := map[];
    var pairs := SplitOn(raw, ',');
    for k := 0 to |pairs|
      invariant r == SetsFrom(pairs[..k])
    {
      SetsStep(pairs, k);
      var pair := Strip(pairs[k]);
      if pair == "" { continue; }
      var i := IndexOf(pair, '=');
      if i == |pair| { continue; }
      r := r[Strip(pair[..i]) := Strip(pair[i + 1..])];
    }
    assert pairs[..|pairs|] == pairs;
  }

  lemma SetsStep(pairs: seq<string>, k: nat)
    requires k < |pairs|
    ensures
      var m, pair := SetsFrom(pairs[..k]), Strip(pairs[k]);
      var i := IndexOf(pair, '=');
      SetsFrom(pairs[..k + 1]) == if i == |pair| then m else m[Strip(pair[..i]) := Strip(pair[i + 1..])]
  {
    var upTo := pairs[..k + 1];
    assert upTo[..k] == pairs[..k] && upTo[k] == pairs[k];
    var m := SetsFrom(pairs[..k]);
    assert SetsFrom(upTo) == m + SetPair(pairs[k]);
    AddPair(m, pairs[k]);
  }

  lemma AddPair(m: map<string, string>, text: string)
    ensures
      var pair := Strip(text);
      var i := IndexOf(pair, '=');
      m + SetPair(text) == if i == |pair| then m else m[Strip(pair[..i]) := Strip(pair[i + 1..])]
  {}

  predicate IsEnvAction(action: string) {
    action in {"rotate_credential", "patch_route", "quarantine_host", "inject_noise"}
  }

  function FlagPrefix(action: string): string
    requires IsEnvAction(action)
  {
    if action == "rotate_credential" then "cred"
    else if action == "patch_route" then "route"
    else if action == "quarantine_host" then "host"
    else "noise"
  }

  function FlagStatus(action: string): string {
    if action == "rotate_credential" then "rotated"
    else if action == "patch_route" then "patched"
    else "quarantined"
  }

  function TargetOf(r: Response): string { Get(r.payload, "target") }

  function CallOf(r: Response): EnvCall { EnvCall(r.action, TargetOf(r), r.payload) }

  /** The event a response produces, stamped with the tick. */
  function EventOf(env: Environment, calls: seq<EnvCall>, role: string, tick: nat, r: Response): Event {
    if IsEnvAction(r.action) then env(calls, CallOf(r)).(tick := tick)
    else Event(tick, role, r.action, TargetOf(r), r.payload)
  }

  /** What an environment action leaves in the state. */
  function Marked(s: State, r: Response): State {
    if !IsEnvAction(r.action) then s
    else
      var noise := if r.action == "inject_noise" then s.noise + 1 else s.noise;
      var status := if r.action == "inject_noise" then PrintNat(noise) else FlagStatus(r.action);
      s.(noise := noise, flags := s.flags[FlagPrefix(r.action) + ":" + TargetOf(r) := status])
  }

  /** The response's own settings, checkpoint and trigger. */
  function Settled(s: State, r: Response): State {
    var checkpoint, trigger := Get(r.payload, "checkpoint"), Get(r.payload, "trigger_id");
    s.(flags := s.flags + SetsFrom(SplitOn(Get(r.payload, "sets"), ',')),
       checkpoints := if checkpoint == "" then s.checkpoints else s.checkpoints + {checkpoint},
       fired := if trigger == "" then s.fired else s.fired + {trigger})
  }

  function StateAfter(s: State, r: Response): State { Settled(Marked(s, r), r) }

  function FiredBy(s: State, r: Response): seq<string> {
    var trigger := Get(r.payload, "trigger_id");
    if trigger == "" || trigger in s.fired then [] else [trigger]
  }

  function ReportAfter(report: Report, s: State, role: string, tick: nat, r: Response, event: Event): Report {
    Report(report.timeline + [event],
           report.fired + FiredBy(s, r),
           report.applied + [Record(tick, role, r.id, r.action, TargetOf(r))],
           report.blocked + (if r.action == "blocked" then [r.id] else []))
  }

  function ApplyOne(env: Environment, role: string, tick: nat, w: World, r: Response): World {
    var event := EventOf(env, w.calls, role, tick, r);
    World(w.bus + [event],
          StateAfter(w.state, r),
          ReportAfter(w.report, w.state, role, tick, r, event),
          if IsEnvAction(r.action) then w.calls + [CallOf(r)] else w.calls)
  }

  function ApplyAll(env: Environment, role: string, tick: nat, w: World, rs: seq<Response>): World
    decreases |rs|
  {
    if rs == [] then w else ApplyAll(env, role, tick, ApplyOne(env, role, tick, w, rs[0]), rs[1..])
  }

  // ---------------------------------------------------------------------------
  // Ticks.

  function Stamped(events: seq<Event>, tick: nat): (r: seq<Event>)
    ensures |r| == |events| && forall i | 0 <= i < |r| :: r[i] == events[i].(tick := tick)
  {
    seq(|events|, i requires 0 <= i < |events| => events[i].(tick := tick))
  }

  function Polled(setup: Setup, w: World, tick: nat): World {
    var events := Stamped(setup.poll(tick), tick);
    w.(bus := w.bus + events,
       state := w.state.(tick := tick),
       report := w.report.(timeline := w.report.timeline + events))
  }

  function Act(setup: Setup, agent: Option<Agent>, role: string, w: World, tick: nat): Outcome {
    match agent
    case None => Ok(w)
    case Some(decide) =>
      match decide(tick, w.bus, w.state)
      case Err(e) => Err(e)
      case Ok(rs) => Ok(ApplyAll(setup.environment, role, tick, w, rs))
  }

  /** The world as the defender sees it. */
  function BeforeDefender(setup: Setup, w: World, tick: nat): Outcome {
    Act(setup, setup.attacker, "attacker", Polled(setup, w, tick), tick)
  }

  function Tick(setup: Setup, w: World, tick: nat): Outcome {
    match BeforeDefender(setup, w, tick)
    case Err(e) => Err(e)
    case Ok(mid) => Act(setup, setup.defender, "defender", mid, tick)
  }

  function RunTicks(setup: Setup, n: nat): Outcome {
    if n == 0 then Ok(START)
    else
      match RunTicks(setup, n - 1)
      case Err(e) => Err(e)
      case Ok(w) => Tick(setup, w, n - 1)
  }

  // ---------------------------------------------------------------------------
  // Scripted agents.

  datatype Trigger = Trigger(id: string, condition: string)

  datatype Move = Move(tick: int, response: Response, precondition: string)

  /** A blocked move keeps none of the intended effects. */
  function BlockedMove(m: Move): Response {
    Response(m.response.id + "-blocked", "blocked: " + m.response.description, "blocked",
             map["target" := TargetOf(m.response), "intended_action" := m.response.action, "reason" := m.precondition])
  }

  /** The moves scripted for this tick, in plan order. */
  function AttackerDecide(moves: seq<Move>, tick: nat, events: seq<Event>, s: State): Result<seq<Response>, Error>
    decreases |moves|
  {
    if moves == [] then Ok([])
    else if moves[0].tick != tick then AttackerDecide(moves[1..], tick, events, s)
    else
      var m := moves[0];
      match if m.precondition == "" then Ok(true) else Evaluate(m.precondition, ViewOf(tick, events, s))
      case Err(e) => Err(e)
      case Ok(holds) =>
        match AttackerDecide(moves[1..], tick, events, s)
        case Err(e) => Err(e)
        case Ok(rest) => Ok([if holds then m.response else BlockedMove(m)] + rest)
  }

  function ResponsesOf(responses: map<string, seq<Response>>, id: string): seq<Response> {
    if id in responses then responses[id] else []
  }

  function StampTrigger(rs: seq<Response>, id: string): (r: seq<Response>)
    ensures |r| == |rs| && forall i | 0 <= i < |r| :: r[i] == rs[i].(payload := rs[i].payload["trigger_id" := id])
  {
    seq(|rs|, i requires 0 <= i < |rs| => rs[i].(payload := rs[i].payload["trigger_id" := id]))
  }

  /** Every trigger that has not fired yet and whose condition holds proposes its responses. */
  function DefenderDecide(triggers: seq<Trigger>, responses: map<string, seq<Response>>, tick: nat, events: seq<Event>,
                          s: State): Result<seq<Response>, Error>
    decreases |triggers|
  {
    if triggers == [] then Ok([])
    else if triggers[0].id in s.fired then DefenderDecide(triggers[1..], responses, tick, events, s)
    else
      match Evaluate(triggers[0].condition, ViewOf(tick, events, s))
      case Err(e) => Err(e)
      case Ok(holds) =>
        match DefenderDecide(triggers[1..], responses, tick, events, s)
        case Err(e) => Err(e)
        case Ok(rest) =>
          Ok((if holds then StampTrigger(ResponsesOf(responses, triggers[0].id), triggers[0].id) else []) + rest)
  }

  function ScriptedAttacker(moves: seq<Move>): Agent {
    (tick: nat, events: seq<Event>, s: State) => AttackerDecide(moves, tick, events, s)
  }

  function ScriptedDefender(triggers: seq<Trigger>, responses: map<string, seq<Response>>): Agent {
    (tick: nat, events: seq<Event>, s: State) => DefenderDecide(triggers, responses, tick, events, s)
  }

  // ---------------------------------------------------------------------------
  // The run.

  class ScenarioRun {
    var bus: seq<Event>
    var state: State
    var report: Report
    var calls: seq<EnvCall>
    const setup: Setup

    ghost function Here(): World
      reads this
    {
      World(bus, state, report, calls)
    }

    constructor (setup: Setup)
      ensures Here() == START && this.setup == setup
    {
      this.setup := setup;
      bus, calls := [], [];
      state := State(0, {}, map[], {}, 0);
      report := Report([], [], [], []);
    }

    method Publish(event: Event)
      modifies `bus, `report
      ensures bus == old(bus) + [event] && report == old(report).(timeline := old(report).timeline + [event])
    {
      bus := bus + [event];
      report := report.(timeline := report.timeline + [event]);
    }

    /** The response's effect outside, if it has one, and its event. */
    method Produce(role: string, tick: nat, r: Response) returns (event: Event)
      modifies `calls, `state
      ensures event == EventOf(setup.environment, old(calls), role, tick, r)
      ensures calls == old(calls) + (if IsEnvAction(r.action) then [CallOf(r)] else [])
      ensures state == Marked(old(state), r)
    {
      var target := Get(r.payload, "target");
      if !IsEnvAction(r.action) { return Event(tick, role, r.action, target, r.payload); }
      event := setup.environment(calls, EnvCall(r.action, target, r.payload)).(tick := tick);
      calls := calls + [EnvCall(r.action, target, r.payload)];
      var key := FlagPrefix(r.action) + ":" + target;
      if r.action == "inject_noise" {
        state := state.(noise := state.noise + 1);
        state := state.(flags := state.flags[key := PrintNat(state.noise)]);
      } else {
        state := state.(flags := state.flags[key := FlagStatus(r.action)]);
      }
    }

    method Settle(r: Response)
      modifies `state, `report
      ensures state == Settled(old(state), r)
      ensures report == old(report).(fired := old(report).fired + FiredBy(old(state), r))
    {
      var sets := ParseSets(Get(r.payload, "sets"));
      state := state.(flags := state.flags + sets);
      var checkpoint := Get(r.payload, "checkpoint");
      if checkpoint != "" { state := state.(checkpoints := state.checkpoints + {checkpoint}); }
      var trigger := Get(r.payload, "trigger_id");
      if trigger != "" && trigger !in state.fired {
        state := state.(fired := state.fired + {trigger});
        report := report.(fired := report.fired + [trigger]);
      }
    }

    method ApplyResponse(role: string, tick: nat, r: Response)
      modifies this
      ensures Here() == ApplyOne(setup.environment, role, tick, old(Here()), r)
    {
      var event := Produce(role, tick, r);
      Publish(event);
      report := report.(applied := report.applied + [Record(tick, role, r.id, r.action, Get(r.payload, "target"))]);
      Settle(r);
      if r.action == "blocked" { report := report.(blocked := report.blocked + [r.id]); }
    }

    method ApplyResponses(role: string, tick: nat, rs: seq<Response>)
      modifies this
      ensures Here() == ApplyAll(setup.environment, role, tick, old(Here()), rs)
    {
      var i := 0;
      while i < |rs|
        invariant 0 <= i <= |rs|
        invariant ApplyAll(setup.environment, role, tick, Here(), rs[i..])
               == ApplyAll(setup.environment, role, tick, old(Here()), rs)
      {
        ApplyResponse(role, tick, rs[i]);
        assert rs[i..][1..] == rs[i + 1..];
        i := i + 1;
      }
    }

    method PollTick(tick: nat)
      modifies this
      ensures Here() == Polled(setup, old(Here()), tick)
    {
      state := state.(tick := tick);
      var polled := setup.poll(tick);
      ghost var stamped := Stamped(polled, tick);
      ghost var before := Here();
      var i := 0;
      while i < |polled|
        invariant 0 <= i <= |polled| && calls == before.calls && state == before.state
        invariant bus == before.bus + stamped[..i]
        invariant report == before.report.(timeline := before.report.timeline + stamped[..i])
      {
        Publish(polled[i].(tick := tick));
        i := i + 1;
      }
      assert stamped[..|polled|] == stamped;
    }

    /** Fails where the source raises, with whatever has happened so far. */
    method LetAct(agent: Option<Agent>, role: string, tick: nat) returns (failed: Option<Error>)
      modifies this
      ensures match Act(setup, agent, role, old(Here()), tick)
              case Ok(w) => failed.None? && Here() == w
              case Err(e) => failed == Some(e)
    {
      failed := None;
      if agent.Some? {
        var decide := agent.value;
        var decisions := decide(tick, bus, state);
        if decisions.Err? { return Some(decisions.error); }
        ApplyResponses(role, tick, decisions.value);
      }
    }

    method Run(ticks: nat) returns (r: Outcome)
      requires Here() == START
      modifies this
      ensures r == RunTicks(setup, ticks)
    {
      var tick := 0;
      while tick < ticks
        invariant 0 <= tick <= ticks && RunTicks(setup, tick) == Ok(Here())
      {
        PollTick(tick);
        var failed := LetAct(setup.attacker, "attacker", tick);
        if failed.None? { failed := LetAct(setup.defender, "defender", tick); }
        if failed.Some? {
          FailureStays(setup, tick + 1, ticks, failed.value);
          return Err(failed.value);
        }
        tick := tick + 1;
      }
      r := Ok(World(bus, state, report, calls));
    }
  }

  lemma {:induction false} FailureStays(setup: Setup, n: nat, m: nat, e: Error)
    requires RunTicks(setup, n) == Err(e) && n <= m
    ensures RunTicks(setup, m) == Err(e)
    decreases m - n
  {
    if n < m { FailureStays(setup, n, m - 1, e); }
  }
}
