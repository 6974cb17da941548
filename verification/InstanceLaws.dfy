/** What every run of the instance verbs keeps. */
module InstanceLaws {
  import opened Basics
  import opened Instances

  datatype Verb =
    | Add(id: string, row: Row, now: int)
    | Transition(id: string, to: State, reason: string, actor: string, now: int)
    | SetDesired(id: string, desired: Desired, now: int)
    | Assign(id: string, worker: Option<string>, now: int)
    | SetFacts(id: string, image: Option<string>, seed: Option<string>, expiresAt: Option<int>, now: int)
    | BumpGeneration(id: string, now: int)
    | FenceStale(id: string, dead: string, generation: int, now: int)
    | FenceMissing(id: string, generation: int, now: int)

  function Call(s: Tables, verb: Verb): Outcome<Tables> {
    match verb
    case Add(id, row, now) => AddSpec(s, id, row, now)
    case Transition(id, to, reason, actor, now) => TransitionSpec(s, id, to, reason, actor, now)
    case SetDesired(id, desired, now) => DesiredSpec(s, id, desired, now)
    case Assign(id, worker, now) => AssignSpec(s, id, worker, now)
    case SetFacts(id, image, seed, expiresAt, now) => FactsSpec(s, id, image, seed, expiresAt, now)
    case BumpGeneration(id, now) => BumpSpec(s, id, now)
    case FenceStale(id, worker, generation, now) => FenceStaleSpec(s, id, worker, generation, now)
    case FenceMissing(id, generation, now) => FenceMissingSpec(s, id, generation, now)
  }

  function After(s: Tables, verb: Verb): Tables {
    match Call(s, verb) case Ok(s') => s' case Err(_) => s
  }

  function Run(s: Tables, verbs: seq<Verb>): Tables
    decreases |verbs|
  {
    if verbs == [] then s else Run(After(s, verbs[0]), verbs[1..])
  }

  // ---------------------------------------------------------------------------
  // What one verb can do.

  datatype Kind = Nothing | Added | Moved | Touched | Fenced

  /** Every verb leaves all rows but one alone, and changes that one, with its history, in one of these ways. */
  ghost predicate Shape(s: Tables, s': Tables, id: string, kind: Kind) {
    match kind
    case Nothing => s' == s
    case Added =>
      && id !in s.rows && id in s'.rows && s'.rows == s.rows[id := s'.rows[id]] && s'.rows[id].generation >= 1
      && s'.first == s.first[id := s'.rows[id].generation] && s'.bumps == s.bumps
      && exists e :: s'.events == s.events + [e] && e.instance == id && e.from.None? && e.to == s'.rows[id].state
    case Moved =>
      && Changes(s, s', id) && s'.bumps == s.bumps && s'.rows[id].generation == s.rows[id].generation
      && Legal(s.rows[id].state, s'.rows[id].state)
      && exists e :: s'.events == s.events + [e] && e.instance == id && e.from == Some(s.rows[id].state)
           && e.to == s'.rows[id].state
    case Touched =>
      && Changes(s, s', id) && s'.bumps == s.bumps && s'.events == s.events
      && s'.rows[id].state == s.rows[id].state && s'.rows[id].generation == s.rows[id].generation
    case Fenced =>
      && Changes(s, s', id) && s'.events == s.events && s'.rows[id].state == s.rows[id].state
      && s'.rows[id].generation == s.rows[id].generation + 1
      && s'.bumps == s.bumps + [Bump(id, s.rows[id].generation)]
  }

  predicate Changes(s: Tables, s': Tables, id: string) {
    && id in s.rows && id in s'.rows && s'.rows == s.rows[id := s'.rows[id]] && s'.first == s.first
    && s.rows[id].state != Archived
  }

  function KindOf(s: Tables, verb: Verb): Kind {
    var s' := After(s, verb);
    if s' == s then Nothing
    else
      match verb
      case Add(_, _, _) => Added
      case Transition(_, _, _, _, _) => Moved
      case BumpGeneration(_, _) => Fenced
      case FenceStale(_, _, _, _) => Fenced
      case FenceMissing(_, _, _) => Fenced
      case _ => Touched
  }

  lemma StepShape(s: Tables, verb: Verb)
    ensures Shape(s, After(s, verb), verb.id, KindOf(s, verb))
  {
    match verb
    case Add(id, row, now) => AddShape(s, id, row, now);
    case Transition(id, to, reason, actor, now) => TransitionShape(s, id, to, reason, actor, now);
    case _ =>
  }

  lemma AddShape(s: Tables, id: string, row: Row, now: int)
    ensures var verb := Add(id, row, now); Shape(s, After(s, verb), id, KindOf(s, verb))
  {
    var s' := After(s, Add(id, row, now));
    if id !in s.rows && row.generation >= 1 {
      var e := Event(id, None, row.state, "created", "system", row.generation, now);
      assert s'.events == s.events + [e];
    }
  }

  lemma TransitionShape(s: Tables, id: string, to: State, reason: string, actor: string, now: int)
    ensures var verb := Transition(id, to, reason, actor, now); Shape(s, After(s, verb), id, KindOf(s, verb))
  {
    var s' := After(s, Transition(id, to, reason, actor, now));
    if s' != s {
      var e := Event(id, Some(s.rows[id].state), to, reason, actor, s.rows[id].generation, now);
      assert s'.events == s.events + [e];
    }
  }

  // ---------------------------------------------------------------------------
  // The event stream.

  function Stream(events: seq<Event>, id: string): seq<Event>
    decreases |events|
  {
    if events == [] then []
    else
      var n := |events| - 1;
      Stream(events[..n], id) + (if events[n].instance == id then [events[n]] else [])
  }

  lemma StreamAppend(events: seq<Event>, e: Event, id: string)
    ensures Stream(events + [e], id) == Stream(events, id) + (if e.instance == id then [e] else [])
  {
    assert (events + [e])[..|events|] == events;
  }

  lemma {:induction false} NoStream(events: seq<Event>, id: string)
    requires forall e | e in events :: e.instance != id
    ensures Stream(events, id) == []
    decreases |events|
  {
    if events != [] { NoStream(events[..|events| - 1], id); }
  }

  predicate Chains(h: seq<Event>) {
    && h != [] && h[0].from.None?
    && forall i | 1 <= i < |h| :: h[i].from == Some(h[i - 1].to) && Legal(h[i - 1].to, h[i].to)
  }

  /** Replaying a stream: each event must start where the last one ended. */
  function Replay(h: seq<Event>): Option<State>
    decreases |h|
  {
    if h == [] then None
    else
      var n := |h| - 1;
      if h[n].from == Replay(h[..n]) then Some(h[n].to) else None
  }

  function Bumps(bumps: seq<Bump>, id: string): nat
    decreases |bumps|
  {
    if bumps == [] then 0
    else Bumps(bumps[..|bumps| - 1], id) + (if bumps[|bumps| - 1].instance == id then 1 else 0)
  }

  lemma BumpsAppend(bumps: seq<Bump>, b: Bump, id: string)
    ensures Bumps(bumps + [b], id) == Bumps(bumps, id) + (if b.instance == id then 1 else 0)
  {
    assert (bumps + [b])[..|bumps|] == bumps;
  }

  // ---------------------------------------------------------------------------
  // The invariant.

  predicate StreamOk(events: seq<Event>, id: string, row: Row) {
    Chains(Stream(events, id)) && Replay(Stream(events, id)) == Some(row.state)
  }

  /** The generation is where it started plus the accepted bumps, and each value was bumped away at most once. */
  ghost predicate GenerationOk(s: Tables, id: string)
    requires id in s.rows
  {
    && id in s.first && s.first[id] >= 1
    && s.rows[id].generation == s.first[id] + Bumps(s.bumps, id)
  }

  ghost predicate BumpedOnce(s: Tables) {
    && (forall i, j | 0 <= i < j < |s.bumps| && s.bumps[i].instance == s.bumps[j].instance ::
          s.bumps[i].was != s.bumps[j].was)
    && (forall b | b in s.bumps :: b.instance in s.rows && b.was < s.rows[b.instance].generation)
  }

  ghost predicate EventsKnown(s: Tables) { forall e | e in s.events :: e.instance in s.rows }

  ghost predicate Inv(s: Tables) {
    && StreamsOk(s)
    && GenerationsOk(s)
    && EventsKnown(s)
    && BumpedOnce(s)
  }

  lemma MovedStream(events: seq<Event>, e: Event, id: string, row: Row, row': Row)
    requires StreamOk(events, id, row) && e.instance == id
    requires e.from == Some(row.state) && e.to == row'.state && Legal(row.state, row'.state)
    ensures StreamOk(events + [e], id, row')
  {
    var h := Stream(events, id);
    StreamAppend(events, e, id);
    assert (h + [e])[..|h|] == h;
    ReplayEnds(h);
  }

  lemma ReplayEnds(h: seq<Event>)
    requires h != [] && Replay(h).Some?
    ensures Replay(h) == Some(h[|h| - 1].to)
  {}

  lemma {:induction false} NoBumps(bumps: seq<Bump>, id: string)
    requires forall b | b in bumps :: b.instance != id
    ensures Bumps(bumps, id) == 0
    decreases |bumps|
  {
    if bumps != [] { NoBumps(bumps[..|bumps| - 1], id); }
  }

  ghost predicate StreamsOk(s: Tables) { forall id | id in s.rows :: StreamOk(s.events, id, s.rows[id]) }

  lemma AddedInv(s: Tables, s': Tables, id: string)
    requires Inv(s) && Shape(s, s', id, Added)
    ensures Inv(s')
  {
    var e :| s'.events == s.events + [e] && e.instance == id && e.from.None? && e.to == s'.rows[id].state;
    AddedStreams(s, s', id, e);
    AddedGenerations(s, s', id);
  }

  lemma AddedGenerations(s: Tables, s': Tables, id: string)
    requires GenerationsOk(s) && BumpedOnce(s) && Shape(s, s', id, Added)
    ensures GenerationsOk(s') && BumpedOnce(s')
  {
    forall b | b in s.bumps ensures b.instance != id { assert b.instance in s.rows; }
    NoBumps(s.bumps, id);
    forall k | k in s'.rows ensures GenerationOk(s', k) {
      if k != id { assert GenerationOk(s, k); }
    }
  }

  lemma AddedStreams(s: Tables, s': Tables, id: string, e: Event)
    requires StreamsOk(s) && id !in s.rows && id in s'.rows && s'.rows == s.rows[id := s'.rows[id]]
    requires forall x | x in s.events :: x.instance in s.rows
    requires s'.events == s.events + [e] && e.instance == id && e.from.None? && e.to == s'.rows[id].state
    ensures StreamsOk(s')
  {
    NoStream(s.events, id);
    assert [e][..0] == [];
    forall k | k in s'.rows ensures StreamOk(s'.events, k, s'.rows[k]) {
      StreamAppend(s.events, e, k);
      if k == id { assert Stream(s'.events, k) == [e]; } else { assert Stream(s'.events, k) == Stream(s.events, k); }
    }
  }

  lemma MovedInv(s: Tables, s': Tables, id: string)
    requires Inv(s) && Shape(s, s', id, Moved)
    ensures Inv(s')
  {
    var e :| s'.events == s.events + [e] && e.instance == id && e.from == Some(s.rows[id].state)
             && e.to == s'.rows[id].state;
    MovedStreams(s, s', id, e);
    SameGenerations(s, s', id);
    MovedRest(s, s', id, e);
  }

  lemma MovedRest(s: Tables, s': Tables, id: string, e: Event)
    requires EventsKnown(s) && BumpedOnce(s) && Changes(s, s', id)
    requires s'.events == s.events + [e] && e.instance == id && s'.bumps == s.bumps
    requires s'.rows[id].generation == s.rows[id].generation
    ensures EventsKnown(s') && BumpedOnce(s')
  {}

  lemma MovedStreams(s: Tables, s': Tables, id: string, e: Event)
    requires StreamsOk(s) && id in s.rows && id in s'.rows && s'.rows == s.rows[id := s'.rows[id]]
    requires s'.events == s.events + [e] && e.instance == id && e.from == Some(s.rows[id].state)
    requires e.to == s'.rows[id].state && Legal(s.rows[id].state, s'.rows[id].state)
    ensures StreamsOk(s')
  {
    forall k | k in s'.rows ensures StreamOk(s'.events, k, s'.rows[k]) {
      if k == id {
        MovedStream(s.events, e, id, s.rows[id], s'.rows[id]);
      } else {
        StreamAppend(s.events, e, k);
        assert Stream(s'.events, k) == Stream(s.events, k);
      }
    }
  }

  lemma SameStreams(s: Tables, s': Tables, id: string)
    requires StreamsOk(s) && Changes(s, s', id) && s'.events == s.events && s'.rows[id].state == s.rows[id].state
    ensures StreamsOk(s')
  {
    forall k | k in s'.rows ensures StreamOk(s'.events, k, s'.rows[k]) { assert StreamOk(s.events, k, s.rows[k]); }
  }

  ghost predicate GenerationsOk(s: Tables) { forall id | id in s.rows :: GenerationOk(s, id) }

  lemma SameGenerations(s: Tables, s': Tables, id: string)
    requires GenerationsOk(s) && Changes(s, s', id)
    requires s'.bumps == s.bumps && s'.rows[id].generation == s.rows[id].generation
    ensures GenerationsOk(s')
  {
    forall k | k in s'.rows ensures GenerationOk(s', k) { assert GenerationOk(s, k); }
  }

  lemma NextGenerations(s: Tables, s': Tables, id: string)
    requires GenerationsOk(s) && Changes(s, s', id) && s'.rows[id].generation == s.rows[id].generation + 1
    requires s'.bumps == s.bumps + [Bump(id, s.rows[id].generation)]
    ensures GenerationsOk(s')
  {
    forall k | k in s'.rows ensures GenerationOk(s', k) {
      assert GenerationOk(s, k);
      BumpsAppend(s.bumps, Bump(id, s.rows[id].generation), k);
    }
  }

  lemma NextBumpedOnce(s: Tables, s': Tables, id: string)
    requires BumpedOnce(s) && Changes(s, s', id) && s'.rows[id].generation == s.rows[id].generation + 1
    requires s'.bumps == s.bumps + [Bump(id, s.rows[id].generation)]
    ensures BumpedOnce(s')
  {
    forall i, j | 0 <= i < j < |s'.bumps| && s'.bumps[i].instance == s'.bumps[j].instance
      ensures s'.bumps[i].was != s'.bumps[j].was
    {
      assert s.bumps[i] in s.bumps;
    }
  }

  lemma SameRest(s: Tables, s': Tables, id: string)
    requires EventsKnown(s) && BumpedOnce(s) && Changes(s, s', id) && s'.events == s.events
    requires s'.bumps == s.bumps && s'.rows[id].generation == s.rows[id].generation
    ensures EventsKnown(s') && BumpedOnce(s')
  {}

  lemma TouchedInv(s: Tables, s': Tables, id: string)
    requires Inv(s) && Shape(s, s', id, Touched)
    ensures Inv(s')
  {
    SameStreams(s, s', id);
    SameGenerations(s, s', id);
    SameRest(s, s', id);
  }

  lemma FencedInv(s: Tables, s': Tables, id: string)
    requires Inv(s) && Shape(s, s', id, Fenced)
    ensures Inv(s')
  {
    SameStreams(s, s', id);
    NextGenerations(s, s', id);
    NextBumpedOnce(s, s', id);
  }

  lemma StepInv(s: Tables, verb: Verb)
    requires Inv(s)
    ensures Inv(After(s, verb))
  {
    StepShape(s, verb);
    match KindOf(s, verb)
    case Nothing =>
    case Added => AddedInv(s, After(s, verb), verb.id);
    case Moved => MovedInv(s, After(s, verb), verb.id);
    case Touched => TouchedInv(s, After(s, verb), verb.id);
    case Fenced => FencedInv(s, After(s, verb), verb.id);
  }

  lemma {:induction false} RunInv(s: Tables, verbs: seq<Verb>)
    requires Inv(s)
    ensures Inv(Run(s, verbs))
    decreases |verbs|
  {
    if verbs != [] {
      StepInv(s, verbs[0]);
      RunInv(After(s, verbs[0]), verbs[1..]);
    }
  }

  // ---------------------------------------------------------------------------
  // Main results.

  /** In every reachable state the event stream of an instance chains along the state graph and replays to its
      state, and its generation is the one it was added with plus its accepted bumps. */
  lemma EveryRun(verbs: seq<Verb>, id: string)
    ensures
      var s := Run(EMPTY, verbs);
      id in s.rows ==>
        && Chains(Stream(s.events, id)) && Replay(Stream(s.events, id)) == Some(s.rows[id].state)
        && id in s.first && s.rows[id].generation == s.first[id] + Bumps(s.bumps, id)
  {
    RunInv(EMPTY, verbs);
    var s := Run(EMPTY, verbs);
    if id in s.rows { assert StreamOk(s.events, id, s.rows[id]) && GenerationOk(s, id); }
  }

  predicate Expects(verb: Verb, id: string, generation: int) {
    (verb.FenceStale? || verb.FenceMissing?) && verb.id == id && verb.generation == generation
  }

  /** How many rival passes with this expected generation were accepted. */
  function Winners(s: Tables, verbs: seq<Verb>, id: string, generation: int): nat
    decreases |verbs|
  {
    if verbs == [] then 0
    else
      var won := Expects(verbs[0], id, generation) && KindOf(s, verbs[0]) == Fenced;
      (if won then 1 else 0) + Winners(After(s, verbs[0]), verbs[1..], id, generation)
  }

  lemma {:induction false} PastGeneration(s: Tables, verbs: seq<Verb>, id: string, generation: int)
    requires id in s.rows && s.rows[id].generation > generation
    ensures Winners(s, verbs, id, generation) == 0
    ensures id in Run(s, verbs).rows && Run(s, verbs).rows[id].generation > generation
    decreases |verbs|
  {
    if verbs != [] {
      StepShape(s, verbs[0]);
      PastGeneration(After(s, verbs[0]), verbs[1..], id, generation);
    }
  }

  /** However many rivals carry the same expected generation, and whatever runs between them, at most one is
      accepted. */
  lemma {:induction false} AtMostOneWinner(s: Tables, verbs: seq<Verb>, id: string, generation: int)
    ensures Winners(s, verbs, id, generation) <= 1
    decreases |verbs|
  {
    if verbs != [] {
      StepShape(s, verbs[0]);
      if Expects(verbs[0], id, generation) && KindOf(s, verbs[0]) == Fenced {
        PastGeneration(After(s, verbs[0]), verbs[1..], id, generation);
      } else {
        AtMostOneWinner(After(s, verbs[0]), verbs[1..], id, generation);
      }
    }
  }

  lemma GenerationPositive(s: Tables, id: string)
    requires Inv(s) && id in s.rows
    ensures s.rows[id].generation >= 1
  {
    assert GenerationOk(s, id);
  }

  lemma BumpAccepted(s: Tables, id: string, row: Row)
    requires id in s.rows && s.rows[id].generation >= 1
    requires Guard(s.rows[id], row) || s.rows[id].state == Archived
    ensures
      var g := s.rows[id].generation;
      Bumped(s, id, row)
      == if s.rows[id].state == Archived then Err(Refused)
         else Ok(s.(rows := s.rows[id := row.(generation := g + 1)], bumps := s.bumps + [Bump(id, g)]))
  {
    assert row.(generation := s.rows[id].generation + 1) != s.rows[id];
  }

  /** A pass whose observation is still current is accepted, unless the row is archived. */
  lemma MissingPassWins(s: Tables, id: string, now: int)
    requires Inv(s) && id in s.rows
    ensures
      var g := s.rows[id].generation;
      FenceMissingSpec(s, id, g, now)
      == if s.rows[id].state == Archived then Err(Refused)
         else Ok(s.(rows := s.rows[id := s.rows[id].(generation := g + 1, updatedAt := now)],
             bumps := s.bumps + [Bump(id, g)]))
  {
    GenerationPositive(s, id);
    BumpAccepted(s, id, s.rows[id].(updatedAt := now));
  }

  lemma StalePassWins(s: Tables, id: string, worker: string, now: int)
    requires Inv(s) && id in s.rows && s.rows[id].worker == Some(worker)
    ensures
      var g := s.rows[id].generation;
      FenceStaleSpec(s, id, worker, g, now)
      == if s.rows[id].state == Archived then Err(Refused)
         else Ok(s.(rows := s.rows[id := s.rows[id].(worker := None, generation := g + 1, updatedAt := now)],
                    bumps := s.bumps + [Bump(id, g)]))
  {
    GenerationPositive(s, id);
    BumpAccepted(s, id, s.rows[id].(worker := None, updatedAt := now));
  }

  /** An archived row never changes again, and its stream is closed. */
  lemma {:induction false} ArchivedIsFrozen(s: Tables, verbs: seq<Verb>, id: string)
    requires id in s.rows && s.rows[id].state == Archived
    ensures
      var s' := Run(s, verbs);
      id in s'.rows && s'.rows[id] == s.rows[id] && Stream(s'.events, id) == Stream(s.events, id)
    decreases |verbs|
  {
    if verbs != [] {
      var s' := After(s, verbs[0]);
      StepShape(s, verbs[0]);
      if s'.events != s.events {
        var e :| s'.events == s.events + [e] && e.instance == verbs[0].id;
        StreamAppend(s.events, e, id);
      }
      ArchivedIsFrozen(s', verbs[1..], id);
    }
  }

  /** The other verbs on an archived row are refused; a move to the state it is in stays a no-op. */
  lemma ArchivedRefuses(s: Tables, verb: Verb)
    requires verb.id in s.rows && s.rows[verb.id].state == Archived
    ensures After(s, verb) == s
    ensures verb.Transition? ==> (Call(s, verb) == Ok(s) <==> verb.to == Archived)
  {}

  /** The verbs that take an instance out of service: through `failed` unless its state leads there directly. */
  function Retire(id: string, st: State): seq<Verb> {
    var end := Transition(id, Archived, "", "", 0);
    if st == Archived then []
    else if Legal(st, Archived) then [end]
    else [Transition(id, Failed, "", "", 0), end]
  }

  /** From every reachable state every instance can still be archived, without touching any other. */
  lemma EveryInstanceCanArchive(s: Tables, id: string)
    requires Inv(s) && id in s.rows
    ensures
      var s' := Run(s, Retire(id, s.rows[id].state));
      && s'.rows.Keys == s.rows.Keys && s'.rows[id].state == Archived
      && forall k | k in s.rows && k != id :: s'.rows[k] == s.rows[k]
  {
    GenerationPositive(s, id);
    Retires(s, id);
  }

  lemma Retires(s: Tables, id: string)
    requires id in s.rows && s.rows[id].generation >= 1
    ensures
      var s' := Run(s, Retire(id, s.rows[id].state));
      s'.rows.Keys == s.rows.Keys && s'.rows[id].state == Archived &&
      forall k | k in s.rows && k != id :: s'.rows[k] == s.rows[k]
  {
    var st, end, fail := s.rows[id].state, Transition(id, Archived, "", "", 0), Transition(id, Failed, "", "", 0);
    if st == Archived {
      assert Run(s, []) == s;
    } else if Legal(st, Archived) {
      OneMove(s, id, Archived);
      RunOne(s, end);
    } else {
      OneMove(s, id, Failed);
      OneMove(After(s, fail), id, Archived);
      RunTwo(s, fail, end);
    }
  }

  lemma OneMove(s: Tables, id: string, to: State)
    requires id in s.rows && s.rows[id].generation >= 1 && s.rows[id].state != to && Legal(s.rows[id].state, to)
    ensures After(s, Transition(id, to, "", "", 0)).rows == s.rows[id := s.rows[id].(state := to, updatedAt := 0)]
  {}

  lemma RunOne(s: Tables, a: Verb)
    ensures Run(s, [a]) == After(s, a)
  {
    assert [a][1..] == [];
    assert Run(After(s, a), []) == After(s, a);
  }

  lemma RunTwo(s: Tables, a: Verb, b: Verb)
    ensures Run(s, [a, b]) == After(After(s, a), b)
  {
    assert [a, b][1..] == [b];
    RunOne(After(s, a), b);
  }
}
