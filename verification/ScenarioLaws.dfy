/** Properties of whole scenario runs. */
module ScenarioLaws {
  import opened Basics
  import opened Text
  import opened Conditions
  import opened Scenario

  // ---------------------------------------------------------------------------
  // Longer runs extend shorter ones.

  predicate Extends(w: World, w': World) {
    && w.bus <= w'.bus && w.calls <= w'.calls && w.state.checkpoints <= w'.state.checkpoints
    && w.report.timeline <= w'.report.timeline && w.report.fired <= w'.report.fired
    && w.report.applied <= w'.report.applied && w.report.blocked <= w'.report.blocked
  }

  lemma {:induction false} ApplyAllExtends(env: Environment, role: string, tick: nat, w: World, rs: seq<Response>)
    ensures Extends(w, ApplyAll(env, role, tick, w, rs))
    decreases |rs|
  {
    if rs != [] { ApplyAllExtends(env, role, tick, ApplyOne(env, role, tick, w, rs[0]), rs[1..]); }
  }

  lemma ActExtends(setup: Setup, agent: Option<Agent>, role: string, w: World, tick: nat)
    ensures var r := Act(setup, agent, role, w, tick); r.Ok? ==> Extends(w, r.value)
  {
    if agent.Some? {
      var decide := agent.value;
      var rs := decide(tick, w.bus, w.state);
      if rs.Ok? { ApplyAllExtends(setup.environment, role, tick, w, rs.value); }
    }
  }

  lemma TickExtends(setup: Setup, w: World, tick: nat, w': World)
    requires Ticked(setup, w, tick, w')
    ensures Extends(w, w')
  {
    var polled := Polled(setup, w, tick);
    ActExtends(setup, setup.attacker, "attacker", polled, tick);
    var mid := BeforeDefender(setup, w, tick).value;
    ActExtends(setup, setup.defender, "defender", mid, tick);
    ExtendsThrough(w, polled, mid, w');
  }

  lemma ExtendsThrough(a: World, b: World, c: World, d: World)
    requires Extends(a, b) && Extends(b, c) && Extends(c, d)
    ensures Extends(a, d)
  {}

  lemma {:induction false} ShorterRunsDoNotFail(setup: Setup, n: nat, m: nat)
    requires n <= m && RunTicks(setup, m).Ok?
    ensures RunTicks(setup, n).Ok?
    decreases m - n
  {
    if n < m { ShorterRunsDoNotFail(setup, n, m - 1); }
  }

  ghost predicate Ran(setup: Setup, n: nat, w: World) {
    RunTicks(setup, n).Ok? && w == RunTicks(setup, n).value
  }

  ghost predicate Ticked(setup: Setup, w: World, tick: nat, w': World) {
    Tick(setup, w, tick).Ok? && w' == Tick(setup, w, tick).value
  }

  lemma RunStep(setup: Setup, n: nat, w: World) returns (prev: World)
    requires Ran(setup, n + 1, w)
    ensures Ran(setup, n, prev) && Ticked(setup, prev, n, w)
  {
    prev := RunTicks(setup, n).value;
  }

  lemma ExtendsFurther(a: World, b: World, c: World)
    requires Extends(a, b) && Extends(b, c)
    ensures Extends(a, c)
  {}

  ghost predicate StepExtends(run: nat -> Outcome, k: nat) {
    run(k + 1).Ok? ==> run(k).Ok? && Extends(run(k).value, run(k + 1).value)
  }

  lemma {:induction false} StepsExtend(run: nat -> Outcome, n: nat, m: nat)
    requires n <= m && run(m).Ok? && forall k: nat | n <= k < m :: StepExtends(run, k)
    ensures run(n).Ok? && Extends(run(n).value, run(m).value)
    decreases m - n
  {
    if n < m {
      assert StepExtends(run, m - 1);
      StepsExtend(run, n, m - 1);
      ExtendsFurther(run(n).value, run(m - 1).value, run(m).value);
    }
  }

  function Runs(setup: Setup): nat -> Outcome { (n: nat) => RunTicks(setup, n) }

  lemma RunStepExtends(setup: Setup, k: nat)
    ensures StepExtends(Runs(setup), k)
  {
    if RunTicks(setup, k + 1).Ok? {
      var w' := RunTicks(setup, k + 1).value;
      var w := RunStep(setup, k, w');
      TickExtends(setup, w, k, w');
    }
  }

  /** The report of an n-tick run is a prefix of the report of every longer run. */
  lemma LongerRunsExtend(setup: Setup, n: nat, m: nat)
    requires n <= m && RunTicks(setup, m).Ok?
    ensures RunTicks(setup, n).Ok? && Extends(RunTicks(setup, n).value, RunTicks(setup, m).value)
  {
    forall k: nat | n <= k < m ensures StepExtends(Runs(setup), k) { RunStepExtends(setup, k); }
    StepsExtend(Runs(setup), n, m);
  }

  // ---------------------------------------------------------------------------
  // Bookkeeping.

  predicate RecordsAscend(applied: seq<Record>, top: int)
    decreases |applied|
  {
    applied == [] ||
    (applied[|applied| - 1].tick <= top && RecordsAscend(applied[..|applied| - 1], applied[|applied| - 1].tick))
  }

  predicate EventsAscend(events: seq<Event>, top: int)
    decreases |events|
  {
    events == [] ||
    (events[|events| - 1].tick <= top && EventsAscend(events[..|events| - 1], events[|events| - 1].tick))
  }

  /** A list of exactly these values, none of them twice. */
  predicate Lists(list: seq<string>, values: set<string>)
    decreases |list|
  {
    if list == [] then values == {}
    else list[|list| - 1] in values && Lists(list[..|list| - 1], values - {list[|list| - 1]})
  }

  lemma RecordsAppend(applied: seq<Record>, low: int, r: Record)
    requires RecordsAscend(applied, low) && low <= r.tick
    ensures RecordsAscend(applied + [r], r.tick)
  {
    assert (applied + [r])[..|applied|] == applied;
  }

  lemma EventsAppend(events: seq<Event>, low: int, e: Event)
    requires EventsAscend(events, low) && low <= e.tick
    ensures EventsAscend(events + [e], e.tick)
  {
    assert (events + [e])[..|events|] == events;
  }

  lemma ListsAppend(list: seq<string>, values: set<string>, x: string)
    requires Lists(list, values) && x !in values
    ensures Lists(list + [x], values + {x})
  {
    assert (list + [x])[..|list|] == list;
    assert values + {x} - {x} == values;
  }

  lemma {:induction false} ListsMeans(list: seq<string>, values: set<string>)
    requires Lists(list, values)
    ensures NoDup(list) && Elems(list) == values
    decreases |list|
  {
    if list != [] {
      var front, last := list[..|list| - 1], list[|list| - 1];
      ListsMeans(front, values - {last});
      assert list == front + [last];
      assert last !in Elems(front);
      ElemsAppend(front, last);
    }
  }

  lemma {:induction false} RecordsInOrder(applied: seq<Record>, top: int, i: nat, j: nat)
    requires RecordsAscend(applied, top) && i <= j < |applied|
    ensures applied[i].tick <= applied[j].tick <= top
    decreases |applied|
  {
    var n := |applied| - 1;
    if j < n {
      RecordsInOrder(applied[..n], applied[n].tick, i, j);
    } else if i < n {
      RecordsInOrder(applied[..n], applied[n].tick, i, n - 1);
    }
  }

  function NoiseIn(applied: seq<Record>): nat
    decreases |applied|
  {
    if applied == [] then 0
    else NoiseIn(applied[..|applied| - 1]) + (if applied[|applied| - 1].action == "inject_noise" then 1 else 0)
  }

  lemma ApplyOneNoise(env: Environment, role: string, tick: nat, w: World, r: Response)
    requires w.state.noise == NoiseIn(w.report.applied)
    ensures
      var w' := ApplyOne(env, role, tick, w, r);
      w'.state.noise == NoiseIn(w'.report.applied)
  {
    var record := Record(tick, role, r.id, r.action, TargetOf(r));
    assert (w.report.applied + [record])[..|w.report.applied|] == w.report.applied;
  }

  /** Timeline and bus are the same list; records and events are in tick order; fired triggers are listed once;
      the noise counter counts the injected noise on record. */
  ghost predicate Tidy(w: World, top: int) {
    && w.bus == w.report.timeline
    && EventsAscend(w.bus, top) && RecordsAscend(w.report.applied, top)
    && Lists(w.report.fired, w.state.fired)
    && w.state.noise == NoiseIn(w.report.applied)
  }

  lemma ApplyOneTidy(env: Environment, role: string, tick: nat, w: World, r: Response)
    requires Tidy(w, tick)
    ensures Tidy(ApplyOne(env, role, tick, w, r), tick)
  {
    var event := EventOf(env, w.calls, role, tick, r);
    EventsAppend(w.bus, tick, event);
    RecordsAppend(w.report.applied, tick, Record(tick, role, r.id, r.action, TargetOf(r)));
    FiredTidy(w, r);
    ApplyOneNoise(env, role, tick, w, r);
  }

  lemma FiredTidy(w: World, r: Response)
    requires Lists(w.report.fired, w.state.fired)
    ensures Lists(w.report.fired + FiredBy(w.state, r), StateAfter(w.state, r).fired)
  {
    var trigger := Get(r.payload, "trigger_id");
    if trigger == "" || trigger in w.state.fired {
      assert w.report.fired + [] == w.report.fired;
      assert trigger != "" ==> w.state.fired + {trigger} == w.state.fired;
    } else {
      ListsAppend(w.report.fired, w.state.fired, trigger);
    }
  }

  lemma {:induction false} ApplyAllTidy(env: Environment, role: string, tick: nat, w: World, rs: seq<Response>)
    requires Tidy(w, tick)
    ensures Tidy(ApplyAll(env, role, tick, w, rs), tick)
    decreases |rs|
  {
    if rs != [] {
      ApplyOneTidy(env, role, tick, w, rs[0]);
      ApplyAllTidy(env, role, tick, ApplyOne(env, role, tick, w, rs[0]), rs[1..]);
    }
  }

  lemma ActTidy(setup: Setup, agent: Option<Agent>, role: string, w: World, tick: nat)
    requires Tidy(w, tick)
    ensures var r := Act(setup, agent, role, w, tick); r.Ok? ==> Tidy(r.value, tick)
  {
    if agent.Some? {
      var decide := agent.value;
      var rs := decide(tick, w.bus, w.state);
      if rs.Ok? { ApplyAllTidy(setup.environment, role, tick, w, rs.value); }
    }
  }

  lemma {:induction false} StampedAscend(events: seq<Event>, low: int, more: seq<Event>, tick: nat)
    requires EventsAscend(events, low) && low <= tick && forall i | 0 <= i < |more| :: more[i].tick == tick
    ensures EventsAscend(events + more, tick)
    decreases |more|
  {
    if more == [] {
      assert events + more == events;
    } else {
      var n := |more| - 1;
      StampedAscend(events, low, more[..n], tick);
      EventsAppend(events + more[..n], tick, more[n]);
      assert events + more[..n] + [more[n]] == events + more;
    }
  }

  lemma {:induction false} RecordsLater(applied: seq<Record>, low: int, top: int)
    requires RecordsAscend(applied, low) && low <= top
    ensures RecordsAscend(applied, top)
  {}

  lemma PolledTidy(setup: Setup, w: World, tick: nat)
    requires Tidy(w, tick - 1)
    ensures Tidy(Polled(setup, w, tick), tick)
  {
    StampedAscend(w.bus, tick - 1, Stamped(setup.poll(tick), tick), tick);
    RecordsLater(w.report.applied, tick - 1, tick);
  }

  lemma TickTidy(setup: Setup, w: World, tick: nat, w': World)
    requires Tidy(w, tick - 1) && Ticked(setup, w, tick, w')
    ensures Tidy(w', tick)
  {
    PolledTidy(setup, w, tick);
    ActTidy(setup, setup.attacker, "attacker", Polled(setup, w, tick), tick);
    ActTidy(setup, setup.defender, "defender", BeforeDefender(setup, w, tick).value, tick);
  }

  ghost predicate StepTidy(run: nat -> Outcome, k: nat) {
    run(k + 1).Ok? ==> run(k).Ok? && (Tidy(run(k).value, k - 1) ==> Tidy(run(k + 1).value, k))
  }

  lemma {:induction false} StepsTidy(run: nat -> Outcome, n: nat)
    requires run(n).Ok? && (run(0).Ok? ==> Tidy(run(0).value, -1)) && forall k: nat | k < n :: StepTidy(run, k)
    ensures Tidy(run(n).value, n - 1)
  {
    if n > 0 {
      assert StepTidy(run, n - 1);
      StepsTidy(run, n - 1);
    }
  }

  lemma RunStepTidy(setup: Setup, k: nat)
    ensures StepTidy(Runs(setup), k)
  {
    if RunTicks(setup, k + 1).Ok? {
      var w' := RunTicks(setup, k + 1).value;
      var w := RunStep(setup, k, w');
      if Tidy(w, k - 1) { TickTidy(setup, w, k, w'); }
    }
  }

  lemma RunTidy(setup: Setup, n: nat, w: World)
    requires Ran(setup, n, w)
    ensures Tidy(w, n - 1)
  {
    forall k: nat | k < n ensures StepTidy(Runs(setup), k) { RunStepTidy(setup, k); }
    StepsTidy(Runs(setup), n);
  }

  /** In every run timeline and bus agree, records are in tick order, the report lists the fired triggers, each
      once, and the noise counter is the number of injected noises. */
  lemma ReportIsTidy(setup: Setup, n: nat, w: World)
    requires Ran(setup, n, w)
    ensures w.bus == w.report.timeline
    ensures forall i, j | 0 <= i <= j < |w.report.applied| :: w.report.applied[i].tick <= w.report.applied[j].tick < n
    ensures NoDup(w.report.fired) && Elems(w.report.fired) == w.state.fired
    ensures w.state.noise == NoiseIn(w.report.applied)
  {
    RunTidy(setup, n, w);
    ListsMeans(w.report.fired, w.state.fired);
    forall i, j | 0 <= i <= j < |w.report.applied|
      ensures w.report.applied[i].tick <= w.report.applied[j].tick < n
    {
      RecordsInOrder(w.report.applied, n - 1, i, j);
    }
  }

  /** A blocked move has no effect on the state. */
  lemma BlockedHasNoEffect(s: State, m: Move)
    ensures StateAfter(s, BlockedMove(m)) == s
  {
    var r := BlockedMove(m);
    assert Get(r.payload, "sets") == "" && SplitOn("", ',') == [""];
    assert [""][..0] == [] && SetPair("") == map[];
    assert SetsFrom([""]) == map[];
    assert s.flags + map[] == s.flags;
  }

  // ---------------------------------------------------------------------------
  // When a trigger fires.

  /** The view the defender decides on. */
  function DecisionPoint(setup: Setup, k: nat): Option<View> {
    match RunTicks(setup, k)
    case Err(_) => None
    case Ok(w) =>
      match BeforeDefender(setup, w, k)
      case Err(_) => None
      case Ok(mid) => Some(ViewOf(k, mid.bus, mid.state))
  }

  predicate HoldsAt(setup: Setup, t: Trigger, k: nat) {
    DecisionPoint(setup, k).Some? && Evaluate(t.condition, DecisionPoint(setup, k).value) == Ok(true)
  }

  predicate HeldBefore(setup: Setup, t: Trigger, n: nat) { exists k: nat | k < n :: HoldsAt(setup, t, k) }

  /** The first tick at whose decision point the condition holds. */
  predicate FiresAt(setup: Setup, t: Trigger, k: nat) { HoldsAt(setup, t, k) && !HeldBefore(setup, t, k) }

  predicate DistinctIds(triggers: seq<Trigger>) {
    forall i, j | 0 <= i < j < |triggers| :: triggers[i].id != triggers[j].id
  }

  predicate Carries(r: Response) { Get(r.payload, "trigger_id") != "" }

  ghost predicate Clean(agent: Option<Agent>) {
    agent.Some? ==>
      forall tick: nat, events: seq<Event>, s: State ::
        var rs := agent.value(tick, events, s); rs.Ok? ==> forall r | r in rs.value :: !Carries(r)
  }

  /** A scripted defender with distinct non-empty trigger ids and at least one response each, against an
      attacker whose payloads carry no trigger id. */
  ghost predicate Scripted(setup: Setup, triggers: seq<Trigger>, responses: map<string, seq<Response>>) {
    && setup.defender == Some(ScriptedDefender(triggers, responses))
    && DistinctIds(triggers) && Clean(setup.attacker)
    && forall t | t in triggers :: t.id != "" && ResponsesOf(responses, t.id) != []
  }

  predicate Proposes(t: Trigger, fired: set<string>, v: View) {
    t.id !in fired && Evaluate(t.condition, v) == Ok(true)
  }

  function Proposals(triggers: seq<Trigger>, responses: map<string, seq<Response>>, fired: set<string>,
      v: View): seq<Response>
    decreases |triggers|
  {
    if triggers == [] then []
    else
      var t := triggers[0];
      (if Proposes(t, fired, v) then StampTrigger(ResponsesOf(responses, t.id), t.id) else [])
      + Proposals(triggers[1..], responses, fired, v)
  }

  lemma {:induction false} DecideProposes(triggers: seq<Trigger>, responses: map<string, seq<Response>>, tick: nat,
                                          events: seq<Event>, s: State)
    ensures
      var r := DefenderDecide(triggers, responses, tick, events, s);
      r.Ok? ==> r.value == Proposals(triggers, responses, s.fired, ViewOf(tick, events, s))
    decreases |triggers|
  {
    if triggers != [] { DecideProposes(triggers[1..], responses, tick, events, s); }
  }

  function TriggerIds(rs: seq<Response>): set<string> {
    set r | r in rs && Carries(r) :: Get(r.payload, "trigger_id")
  }

  lemma {:induction false} ApplyAllFired(env: Environment, role: string, tick: nat, w: World, rs: seq<Response>)
    ensures ApplyAll(env, role, tick, w, rs).state.fired == w.state.fired + TriggerIds(rs)
    decreases |rs|
  {
    if rs != [] {
      var next := ApplyOne(env, role, tick, w, rs[0]);
      ApplyAllStep(env, role, tick, w, rs, next);
      ApplyOneFired(env, role, tick, w, rs[0]);
      ApplyAllFired(env, role, tick, next, rs[1..]);
      IdsSplit(rs);
      Reassociate(w.state.fired, TriggerIds([rs[0]]), TriggerIds(rs[1..]));
    }
  }

  lemma Reassociate(a: set<string>, b: set<string>, c: set<string>)
    ensures a + b + c == a + (b + c)
  {}

  lemma ApplyAllStep(env: Environment, role: string, tick: nat, w: World, rs: seq<Response>, next: World)
    requires rs != [] && next == ApplyOne(env, role, tick, w, rs[0])
    ensures ApplyAll(env, role, tick, w, rs) == ApplyAll(env, role, tick, next, rs[1..])
  {}

  lemma IdsSplit(rs: seq<Response>)
    requires rs != []
    ensures TriggerIds(rs) == TriggerIds([rs[0]]) + TriggerIds(rs[1..])
  {
    assert [rs[0]] + rs[1..] == rs;
    IdsAppend([rs[0]], rs[1..]);
  }

  lemma ApplyOneFired(env: Environment, role: string, tick: nat, w: World, r: Response)
    ensures ApplyOne(env, role, tick, w, r).state.fired == w.state.fired + TriggerIds([r])
  {
    assert forall x :: x in [r] <==> x == r;
  }

  function ProposingIds(triggers: seq<Trigger>, fired: set<string>, v: View): set<string> {
    set t | t in triggers && Proposes(t, fired, v) :: t.id
  }

  lemma StampedIds(rs: seq<Response>, id: string)
    requires id != "" && rs != []
    ensures TriggerIds(StampTrigger(rs, id)) == {id}
  {
    var stamped := StampTrigger(rs, id);
    assert stamped[0] in stamped;
    forall r | r in stamped ensures Get(r.payload, "trigger_id") == id {}
  }

  lemma IdsAppend(a: seq<Response>, b: seq<Response>)
    ensures TriggerIds(a + b) == TriggerIds(a) + TriggerIds(b)
  {
    assert forall r :: r in a + b <==> r in a || r in b;
  }

  lemma {:induction false} ProposalIds(triggers: seq<Trigger>, responses: map<string, seq<Response>>,
      fired: set<string>, v: View)
    requires forall t | t in triggers :: t.id != "" && ResponsesOf(responses, t.id) != []
    ensures TriggerIds(Proposals(triggers, responses, fired, v)) == ProposingIds(triggers, fired, v)
    decreases |triggers|
  {
    if triggers != [] {
      var t, rest := triggers[0], Proposals(triggers[1..], responses, fired, v);
      ProposalIds(triggers[1..], responses, fired, v);
      assert forall u :: u in triggers <==> u == t || u in triggers[1..];
      if Proposes(t, fired, v) {
        StampedIds(ResponsesOf(responses, t.id), t.id);
        IdsAppend(StampTrigger(ResponsesOf(responses, t.id), t.id), rest);
      } else {
        assert [] + rest == rest;
      }
    }
  }

  ghost function Ids(ts: set<Trigger>): set<string> { set t | t in ts :: t.id }

  ghost function HeldSet(setup: Setup, triggers: seq<Trigger>, n: nat): set<Trigger> {
    set t | t in triggers && HeldBefore(setup, t, n)
  }

  ghost function HeldIds(setup: Setup, triggers: seq<Trigger>, n: nat): set<string> { Ids(HeldSet(setup, triggers, n)) }

  /** Polling and a clean attacker fire nothing. */
  lemma MidFired(setup: Setup, w: World, tick: nat)
    requires Clean(setup.attacker) && BeforeDefender(setup, w, tick).Ok?
    ensures BeforeDefender(setup, w, tick).value.state.fired == w.state.fired
  {
    if setup.attacker.Some? {
      var polled, decide := Polled(setup, w, tick), setup.attacker.value;
      var rs := decide(tick, polled.bus, polled.state);
      ApplyAllFired(setup.environment, "attacker", tick, polled, rs.value);
      assert TriggerIds(rs.value) == {};
    }
  }

  ghost function HoldingNow(triggers: seq<Trigger>, v: View): set<Trigger> {
    set t | t in triggers && Evaluate(t.condition, v) == Ok(true)
  }

  lemma HeldBeforeStep(setup: Setup, t: Trigger, n: nat)
    ensures HeldBefore(setup, t, n + 1) <==> HeldBefore(setup, t, n) || HoldsAt(setup, t, n)
  {
    var holds := (k: nat) => HoldsAt(setup, t, k);
    SomeBefore(holds, n);
    SomeBeforeIs(setup, t, holds, n);
    SomeBeforeIs(setup, t, holds, n + 1);
  }

  ghost predicate HeldIn(holds: nat -> bool, n: nat) { exists k: nat | k < n :: holds(k) }

  lemma SomeBefore(holds: nat -> bool, n: nat)
    ensures HeldIn(holds, n + 1) <==> HeldIn(holds, n) || holds(n)
  {
    if HeldIn(holds, n + 1) {
      var k: nat :| k < n + 1 && holds(k);
      if k < n { assert HeldIn(holds, n); }
    }
    if HeldIn(holds, n) {
      var k: nat :| k < n && holds(k);
      assert k < n + 1 && holds(k);
    }
  }

  lemma SomeBeforeIs(setup: Setup, t: Trigger, holds: nat -> bool, n: nat)
    requires forall k: nat :: holds(k) == HoldsAt(setup, t, k)
    ensures HeldIn(holds, n) <==> HeldBefore(setup, t, n)
  {
    if HeldIn(holds, n) {
      var k: nat :| k < n && holds(k);
      assert HoldsAt(setup, t, k);
    }
    if HeldBefore(setup, t, n) {
      var k: nat :| k < n && HoldsAt(setup, t, k);
      assert holds(k);
    }
  }

  lemma HeldSetStep(setup: Setup, triggers: seq<Trigger>, n: nat, v: View)
    requires DecisionPoint(setup, n) == Some(v)
    ensures HeldSet(setup, triggers, n + 1) == HeldSet(setup, triggers, n) + HoldingNow(triggers, v)
  {
    forall t
      ensures t in HeldSet(setup, triggers, n + 1) <==> t in HeldSet(setup, triggers, n) + HoldingNow(triggers, v)
    {
      HeldBeforeStep(setup, t, n);
    }
  }

  lemma IdsStep(triggers: seq<Trigger>, held: set<Trigger>, v: View)
    ensures Ids(held + HoldingNow(triggers, v)) == Ids(held) + ProposingIds(triggers, Ids(held), v)
  {
    forall id | id in Ids(HoldingNow(triggers, v)) && id !in Ids(held)
      ensures id in ProposingIds(triggers, Ids(held), v)
    {
      var t :| t in HoldingNow(triggers, v) && t.id == id;
      assert Proposes(t, Ids(held), v);
    }
  }

  lemma HeldStep(setup: Setup, triggers: seq<Trigger>, n: nat, v: View)
    requires DecisionPoint(setup, n) == Some(v)
    ensures HeldIds(setup, triggers, n + 1)
         == HeldIds(setup, triggers, n) + ProposingIds(triggers, HeldIds(setup, triggers, n), v)
  {
    HeldSetStep(setup, triggers, n, v);
    IdsStep(triggers, HeldSet(setup, triggers, n), v);
  }

  lemma IdNamesTrigger(setup: Setup, triggers: seq<Trigger>, t: Trigger, n: nat)
    requires DistinctIds(triggers) && t in triggers
    ensures t.id in HeldIds(setup, triggers, n) <==> HeldBefore(setup, t, n)
  {
    IdNames(triggers, HeldSet(setup, triggers, n), t);
  }

  lemma IdNames(triggers: seq<Trigger>, some: set<Trigger>, t: Trigger)
    requires DistinctIds(triggers) && t in triggers && forall u | u in some :: u in triggers
    ensures t.id in Ids(some) <==> t in some
  {
    if t.id in Ids(some) {
      var u :| u in some && u.id == t.id;
      var i :| 0 <= i < |triggers| && triggers[i] == t;
      var j :| 0 <= j < |triggers| && triggers[j] == u;
      assert i == j;
    }
  }

  /** After any run, exactly the triggers that held at some decision point have fired. */
  lemma {:induction false} FiredAreHeld(setup: Setup, triggers: seq<Trigger>,
      responses: map<string, seq<Response>>, n: nat)
    requires Scripted(setup, triggers, responses) && RunTicks(setup, n).Ok?
    ensures RunTicks(setup, n).value.state.fired == HeldIds(setup, triggers, n)
  {
    if n == 0 {
      assert HeldIds(setup, triggers, 0) == {};
    } else {
      var k, w := n - 1, RunTicks(setup, n - 1).value;
      FiredAreHeld(setup, triggers, responses, k);
      MidFired(setup, w, k);
      DefenderFires(setup, triggers, responses, w, k);
      HeldStep(setup, triggers, k, DecisionPoint(setup, k).value);
    }
  }

  lemma DefenderFires(setup: Setup, triggers: seq<Trigger>, responses: map<string, seq<Response>>, w: World, k: nat)
    requires Scripted(setup, triggers, responses) && Tick(setup, w, k).Ok?
    ensures
      var mid := BeforeDefender(setup, w, k).value;
      var v := ViewOf(k, mid.bus, mid.state);
      && Tick(setup, w, k).value
         == ApplyAll(setup.environment, "defender", k, mid, Proposals(triggers, responses, mid.state.fired, v))
      && Tick(setup, w, k).value.state.fired == mid.state.fired + ProposingIds(triggers, mid.state.fired, v)
  {
    var mid := BeforeDefender(setup, w, k).value;
    DecideProposes(triggers, responses, k, mid.bus, mid.state);
    var rs := Proposals(triggers, responses, mid.state.fired, ViewOf(k, mid.bus, mid.state));
    ApplyAllFired(setup.environment, "defender", k, mid, rs);
    ProposalIds(triggers, responses, mid.state.fired, ViewOf(k, mid.bus, mid.state));
  }

  /** The responses of the triggers that fire at tick k, in trigger order. */
  function FiringResponses(setup: Setup, triggers: seq<Trigger>, responses: map<string, seq<Response>>,
      k: nat): seq<Response>
    decreases |triggers|
  {
    if triggers == [] then []
    else
      var t := triggers[0];
      (if FiresAt(setup, t, k) then StampTrigger(ResponsesOf(responses, t.id), t.id) else [])
      + FiringResponses(setup, triggers[1..], responses, k)
  }

  lemma {:induction false} ProposalsAreFirings(setup: Setup, all: seq<Trigger>, triggers: seq<Trigger>,
                                               responses: map<string, seq<Response>>, k: nat, v: View)
    requires DistinctIds(all) && DecisionPoint(setup, k) == Some(v) && forall t | t in triggers :: t in all
    ensures Proposals(triggers, responses, HeldIds(setup, all, k), v) == FiringResponses(setup, triggers, responses, k)
    decreases |triggers|
  {
    if triggers != [] {
      IdNamesTrigger(setup, all, triggers[0], k);
      ProposalsAreFirings(setup, all, triggers[1..], responses, k, v);
    }
  }

  /** Each trigger fires exactly at the first tick where its condition holds at the decision point: that tick
      applies its responses, in trigger order, and no other tick does; the report lists it once. */
  lemma TriggersFireFirst(setup: Setup, triggers: seq<Trigger>, responses: map<string, seq<Response>>, n: nat, w: World)
    requires Scripted(setup, triggers, responses) && Ran(setup, n, w)
    ensures forall k: nat | k < n :: FiringTick(setup, triggers, responses, k)
    ensures forall t, j, k :: FiresAt(setup, t, j) && FiresAt(setup, t, k) ==> j == k
    ensures NoDup(w.report.fired) && forall t | t in triggers :: t.id in w.report.fired <==> HeldBefore(setup, t, n)
  {
    forall k: nat | k < n ensures FiringTick(setup, triggers, responses, k) {
      ShorterRunsDoNotFail(setup, k + 1, n);
      TickFires(setup, triggers, responses, k);
    }
    FiredAreHeld(setup, triggers, responses, n);
    ReportIsTidy(setup, n, w);
    forall t | t in triggers ensures t.id in w.report.fired <==> HeldBefore(setup, t, n) {
      IdNamesTrigger(setup, triggers, t, n);
      assert t.id in w.report.fired <==> t.id in Elems(w.report.fired);
    }
  }

  /** What the defender does at tick k is apply the responses of the triggers that fire there. */
  predicate FiringTick(setup: Setup, triggers: seq<Trigger>, responses: map<string, seq<Response>>, k: nat) {
    && BeforeTick(setup, k).Some?
    && RunTicks(setup, k + 1)
       == Ok(ApplyAll(setup.environment, "defender", k, BeforeTick(setup, k).value,
                      FiringResponses(setup, triggers, responses, k)))
  }

  /** The world at tick k's decision point. */
  function BeforeTick(setup: Setup, k: nat): Option<World> {
    match RunTicks(setup, k)
    case Err(_) => None
    case Ok(w) => match BeforeDefender(setup, w, k) case Err(_) => None case Ok(mid) => Some(mid)
  }

  lemma TickFires(setup: Setup, triggers: seq<Trigger>, responses: map<string, seq<Response>>, k: nat)
    requires Scripted(setup, triggers, responses) && RunTicks(setup, k + 1).Ok?
    ensures FiringTick(setup, triggers, responses, k)
  {
    var w := RunTicks(setup, k).value;
    FiredAreHeld(setup, triggers, responses, k);
    MidFired(setup, w, k);
    DefenderFires(setup, triggers, responses, w, k);
    ProposalsAreFirings(setup, triggers, triggers, responses, k, DecisionPoint(setup, k).value);
  }

  // ---------------------------------------------------------------------------
  // Conditions that latch.

  lemma DecisionPointExtends(setup: Setup, k: nat, w: World, mid: World)
    requires Ran(setup, k, w) && BeforeDefender(setup, w, k).Ok? && mid == BeforeDefender(setup, w, k).value
    ensures Extends(w, mid)
  {
    var polled := Polled(setup, w, k);
    ActExtends(setup, setup.attacker, "attacker", polled, k);
    ExtendsFurther(w, polled, mid);
  }

  lemma DecisionToNext(setup: Setup, k: nat, mid: World, w': World)
    requires BeforeTick(setup, k) == Some(mid) && Ran(setup, k + 1, w')
    ensures Extends(mid, w')
  {
    ActExtends(setup, setup.defender, "defender", mid, k);
  }

  /** What is seen at a decision point only grows from tick to tick. */
  lemma DecisionPointsGrow(setup: Setup, k: nat, m: nat)
    requires k <= m && DecisionPoint(setup, k).Some? && DecisionPoint(setup, m).Some?
    ensures Grows(DecisionPoint(setup, k).value, DecisionPoint(setup, m).value)
  {
    if k < m {
      var mid, top := BeforeTick(setup, k).value, BeforeTick(setup, m).value;
      ShorterRunsDoNotFail(setup, k + 1, m);
      var next, last := RunTicks(setup, k + 1).value, RunTicks(setup, m).value;
      DecisionToNext(setup, k, mid, next);
      LongerRunsExtend(setup, k + 1, m);
      DecisionPointExtends(setup, m, last, top);
      ExtendsFurther(mid, next, last);
      ExtendsFurther(mid, last, top);
    }
  }

  /** A trigger on `time:>=`, `event`, `checkpoint` and `count:>=` clauses holds at every decision point after the
      first one where it holds. */
  lemma GrowingTriggerLatches(setup: Setup, id: string, cs: seq<Clause>, k: nat, m: nat)
    requires forall c | c in cs :: WellNamed(c) && Growing(c)
    requires k <= m && HoldsAt(setup, Trigger(id, PrintAll(cs)), k) && DecisionPoint(setup, m).Some?
    ensures HoldsAt(setup, Trigger(id, PrintAll(cs)), m)
  {
    DecisionPointsGrow(setup, k, m);
    GrowingStaysTrue(cs, DecisionPoint(setup, k).value, DecisionPoint(setup, m).value);
  }

  // ---------------------------------------------------------------------------
  // `sets` payloads.

  /** Overlaying what each text stands for, in order. */
  function Overlaid(meaning: string -> map<string, string>, texts: seq<string>): map<string, string>
    decreases |texts|
  {
    if texts == [] then map[] else Overlaid(meaning, texts[..|texts| - 1]) + meaning(texts[|texts| - 1])
  }

  lemma {:induction false} LastOverlayWins(meaning: string -> map<string, string>, texts: seq<string>, i: nat,
      key: string)
    requires i < |texts| && key in meaning(texts[i]) && forall j | i < j < |texts| :: key !in meaning(texts[j])
    ensures key in Overlaid(meaning, texts) && Overlaid(meaning, texts)[key] == meaning(texts[i])[key]
    decreases |texts|
  {
    var n := |texts| - 1;
    Overlay(Overlaid(meaning, texts[..n]), meaning(texts[n]), key);
    if i < n { LastOverlayWins(meaning, texts[..n], i, key); }
  }

  lemma {:induction false} KeysOverlaid(meaning: string -> map<string, string>, texts: seq<string>, key: string)
    ensures key in Overlaid(meaning, texts) <==> exists i :: 0 <= i < |texts| && key in meaning(texts[i])
    decreases |texts|
  {
    if texts != [] {
      var n := |texts| - 1;
      KeysOverlaid(meaning, texts[..n], key);
      Overlay(Overlaid(meaning, texts[..n]), meaning(texts[n]), key);
    }
  }

  lemma {:induction false} SetsAreOverlaid(pairs: seq<string>)
    ensures SetsFrom(pairs) == Overlaid(SetPair, pairs)
    decreases |pairs|
  {
    if pairs != [] { SetsAreOverlaid(pairs[..|pairs| - 1]); }
  }

  /** A key is set exactly when some pair names it, and of several pairs for one key the last one counts. */
  lemma LastPairWins(pairs: seq<string>, key: string)
    ensures key in SetsFrom(pairs) <==> exists i :: 0 <= i < |pairs| && key in SetPair(pairs[i])
    ensures forall i | IsLastPair(pairs, i, key) ::
      key in SetsFrom(pairs) && SetsFrom(pairs)[key] == SetPair(pairs[i])[key]
  {
    SetsAreOverlaid(pairs);
    KeysOverlaid(SetPair, pairs, key);
    forall i | IsLastPair(pairs, i, key)
      ensures key in SetsFrom(pairs) && SetsFrom(pairs)[key] == SetPair(pairs[i])[key]
    {
      LastOverlayWins(SetPair, pairs, i, key);
    }
  }

  predicate IsLastPair(pairs: seq<string>, i: int, key: string) {
    0 <= i < |pairs| && key in SetPair(pairs[i]) && forall j | i < j < |pairs| :: key !in SetPair(pairs[j])
  }

  lemma Overlay(a: map<string, string>, b: map<string, string>, key: string)
    ensures key in a + b <==> key in a || key in b
    ensures key in b ==> (a + b)[key] == b[key]
    ensures key in a && key !in b ==> (a + b)[key] == a[key]
  {}
}
