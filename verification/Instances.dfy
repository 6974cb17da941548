/**
 Challenge instances: the guarded state graph, the fencing generation that rival reconciler passes compare and
 set, and the append-only event stream. Every verb is one transaction over a locked row.
 */
module Instances {
  import opened Basics

  datatype State =
    | Requested | Queued | Building | Ready | Starting | Healthy | Active | Degraded
    | Stopping | Stopped | Expired | Failed | Quarantined | Archived

  datatype Desired = WantActive | WantStopped | WantDeleted

  datatype Row = Row(
    competition: string, team: string, version: string,
    state: State, desired: Desired, worker: Option<string>, generation: int,
    image: Option<string>, seed: Option<string>, expiresAt: Option<int>, updatedAt: int)

  datatype Event = Event(instance: string, from: Option<State>, to: State, reason: string, actor: string,
      generation: int, at: int)

  /** `bumps` is a history variable: every accepted change of a generation, with the value it replaced. */
  datatype Bump = Bump(instance: string, was: int)

  datatype Tables = Tables(rows: map<string, Row>, events: seq<Event>, first: map<string, int>, bumps: seq<Bump>)

  datatype Error = Lookup | Refused

  type Outcome<T> = Result<T, Error>

  const EMPTY := Tables(map[], [], map[], [])

  predicate Legal(from: State, to: State) {
    match from
    case Requested => to in {Queued, Failed, Quarantined, Stopping}
    case Queued => to in {Building, Starting, Failed, Quarantined, Stopping}
    case Building => to in {Ready, Failed, Quarantined, Stopping}
    case Ready => to in {Starting, Failed, Quarantined, Stopping}
    case Starting => to in {Healthy, Failed, Quarantined, Stopping}
    case Healthy => to in {Active, Degraded, Stopping, Expired, Quarantined, Failed}
    case Active => to in {Degraded, Stopping, Expired, Quarantined, Failed}
    case Degraded => to in {Healthy, Active, Stopping, Expired, Quarantined, Failed}
    case Stopping => to in {Stopped, Failed, Quarantined}
    case Stopped => to in {Starting, Archived, Quarantined}
    case Expired => to in {Stopping, Archived}
    case Failed => to in {Starting, Archived, Quarantined}
    case Quarantined => to in {Stopping, Archived}
    case Archived => false
  }

  predicate Guard(old_: Row, new_: Row) {
    && old_.competition == new_.competition && old_.team == new_.team && old_.version == new_.version
    && old_.state != Archived
    && (new_.state == old_.state || Legal(old_.state, new_.state))
    && new_.generation >= 1
  }

  /** The flush of a changed row; a row that did not change is not written, so no trigger sees it. */
  function Update(s: Tables, id: string, row: Row): Outcome<Tables>
    requires id in s.rows
  {
    if row == s.rows[id] then Ok(s)
    else if !Guard(s.rows[id], row) then Err(Refused)
    else Ok(s.(rows := s.rows[id := row]))
  }

  function AddSpec(s: Tables, id: string, row: Row, now: int): Outcome<Tables> {
    if id in s.rows || row.generation < 1 then Err(Refused)
    else
      Ok(Tables(s.rows[id := row],
                s.events + [Event(id, None, row.state, "created", "system", row.generation, now)],
                s.first[id := row.generation],
                s.bumps))
  }

  /** Moving to the state the row is in already writes nothing. */
  function TransitionSpec(s: Tables, id: string, to: State, reason: string, actor: string, now: int): Outcome<Tables> {
    if id !in s.rows then Err(Lookup)
    else if s.rows[id].state == to then Ok(s)
    else
      match Update(s, id, s.rows[id].(state := to, updatedAt := now))
      case Err(e) => Err(e)
      case Ok(s') =>
        Ok(s'.(events := s.events + [Event(id, Some(s.rows[id].state), to, reason, actor, s.rows[id].generation, now)]))
  }

  function DesiredSpec(s: Tables, id: string, desired: Desired, now: int): Outcome<Tables> {
    if id !in s.rows then Err(Lookup) else Update(s, id, s.rows[id].(desired := desired, updatedAt := now))
  }

  function AssignSpec(s: Tables, id: string, worker: Option<string>, now: int): Outcome<Tables> {
    if id !in s.rows then Err(Lookup) else Update(s, id, s.rows[id].(worker := worker, updatedAt := now))
  }

  /** Keeps a fact the caller does not give. */
  function FactsSpec(s: Tables, id: string, image: Option<string>, seed: Option<string>, expiresAt: Option<int>,
      now: int): Outcome<Tables>
  {
    if id !in s.rows then Err(Lookup)
    else
      var row := s.rows[id];
      Update(s, id, row.(image := if image.Some? then image else row.image,
                         seed := if seed.Some? then seed else row.seed,
                         expiresAt := if expiresAt.Some? then expiresAt else row.expiresAt,
                         updatedAt := now))
  }

  /** Writes `row` with the next generation. */
  function Bumped(s: Tables, id: string, row: Row): Outcome<Tables>
    requires id in s.rows
  {
    match Update(s, id, row.(generation := s.rows[id].generation + 1))
    case Err(e) => Err(e)
    case Ok(s') => Ok(s'.(bumps := s.bumps + [Bump(id, s.rows[id].generation)]))
  }

  function BumpSpec(s: Tables, id: string, now: int): Outcome<Tables> {
    if id !in s.rows then Err(Lookup) else Bumped(s, id, s.rows[id].(updatedAt := now))
  }

  predicate StaleMatches(s: Tables, id: string, worker: string, generation: int) {
    id in s.rows && s.rows[id].worker == Some(worker) && s.rows[id].generation == generation
  }

  /** Clears the dead worker's assignment and bumps, or leaves everything to the rival that came first. */
  function FenceStaleSpec(s: Tables, id: string, worker: string, generation: int, now: int): Outcome<Tables> {
    if id !in s.rows then Err(Lookup)
    else if !StaleMatches(s, id, worker, generation) then Ok(s)
    else Bumped(s, id, s.rows[id].(worker := None, updatedAt := now))
  }

  function FenceMissingSpec(s: Tables, id: string, generation: int, now: int): Outcome<Tables> {
    if id !in s.rows then Err(Lookup)
    else if s.rows[id].generation != generation then Ok(s)
    else Bumped(s, id, s.rows[id].(updatedAt := now))
  }

  // ---------------------------------------------------------------------------
  // The repository.

  ghost predicate Answers<T>(spec: Outcome<Tables>, before: Tables, after: Tables, r: Outcome<T>) {
    match spec
    case Ok(s) => r.Ok? && after == s
    case Err(e) => r.Err? && r.error == e && after == before
  }

  class Repository {
    var rows: map<string, Row>
    var events: seq<Event>
    ghost var first: map<string, int>
    ghost var bumps: seq<Bump>

    ghost function State(): Tables
      reads this
    {
      Tables(rows, events, first, bumps)
    }

    constructor ()
      ensures State() == EMPTY
    {
      rows, events, first, bumps := map[], [], map[], [];
    }

    method Add(id: string, row: Row, now: int) returns (r: Outcome<()>)
      modifies this
      ensures Answers(AddSpec(old(State()), id, row, now), old(State()), State(), r)
    {
      if id in rows || row.generation < 1 { return Err(Refused); }
      rows := rows[id := row];
      events := events + [Event(id, None, row.state, "created", "system", row.generation, now)];
      first := first[id := row.generation];
      r := Ok(());
    }

    method Flush(id: string, row: Row) returns (r: Outcome<()>)
      requires id in rows
      modifies `rows
      ensures Answers(Update(old(State()), id, row), old(State()), State(), r)
    {
      if row != rows[id] {
        if !Guard(rows[id], row) { return Err(Refused); }
        rows := rows[id := row];
      }
      r := Ok(());
    }

    method Transition(id: string, to: State, reason: string, actor: string, now: int) returns (r: Outcome<()>)
      modifies this
      ensures Answers(TransitionSpec(old(State()), id, to, reason, actor, now), old(State()), State(), r)
    {
      if id !in rows { return Err(Lookup); }
      var row := rows[id];
      var from := row.state;
      if from == to { return Ok(()); }
      row := row.(state := to);
      row := row.(updatedAt := now);
      r := Flush(id, row);
      if r.Ok? { events := events + [Event(id, Some(from), to, reason, actor, row.generation, now)]; }
    }

    method SetAssignment(id: string, worker: Option<string>, now: int) returns (r: Outcome<()>)
      modifies this
      ensures Answers(AssignSpec(old(State()), id, worker, now), old(State()), State(), r)
    {
      if id !in rows { return Err(Lookup); }
      r := Flush(id, rows[id].(worker := worker, updatedAt := now));
    }

    method SetDesiredState(id: string, desired: Desired, now: int) returns (r: Outcome<()>)
      modifies this
      ensures Answers(DesiredSpec(old(State()), id, desired, now), old(State()), State(), r)
    {
      if id !in rows { return Err(Lookup); }
      r := Flush(id, rows[id].(desired := desired, updatedAt := now));
    }

    method SetRuntimeFacts(id: string, image: Option<string>, seed: Option<string>, expiresAt: Option<int>, now: int)
      returns (r: Outcome<()>)
      modifies this
      ensures Answers(FactsSpec(old(State()), id, image, seed, expiresAt, now), old(State()), State(), r)
    {
      if id !in rows { return Err(Lookup); }
      var row := rows[id];
      if image.Some? { row := row.(image := image); }
      if seed.Some? { row := row.(seed := seed); }
      if expiresAt.Some? { row := row.(expiresAt := expiresAt); }
      r := Flush(id, row.(updatedAt := now));
    }

    method BumpGeneration(id: string, now: int) returns (r: Outcome<()>)
      modifies this
      ensures Answers(BumpSpec(old(State()), id, now), old(State()), State(), r)
    {
      if id !in rows { return Err(Lookup); }
      var row := rows[id];
      row := row.(generation := row.generation + 1);
      row := row.(updatedAt := now);
      ghost var was := rows[id].generation;
      r := Flush(id, row);
      if r.Ok? { bumps := bumps + [Bump(id, was)]; }
    }

    /** Reports whether this pass was the one that fenced. */
    method FenceStaleWorker(id: string, worker: string, generation: int, now: int) returns (r: Outcome<bool>)
      modifies this
      ensures Answers(FenceStaleSpec(old(State()), id, worker, generation, now), old(State()), State(), r)
      ensures r.Ok? ==> (r.value <==> StaleMatches(old(State()), id, worker, generation))
    {
      if id !in rows { return Err(Lookup); }
      var row := rows[id];
      if row.worker != Some(worker) || row.generation != generation { return Ok(false); }
      row := row.(worker := None);
      row := row.(generation := row.generation + 1);
      row := row.(updatedAt := now);
      var flushed := Flush(id, row);
      if flushed.Err? { return Err(flushed.error); }
      bumps := bumps + [Bump(id, generation)];
      r := Ok(true);
    }

    method FenceMissingContainer(id: string, generation: int, now: int) returns (r: Outcome<bool>)
      modifies this
      ensures Answers(FenceMissingSpec(old(State()), id, generation, now), old(State()), State(), r)
      ensures r.Ok? ==> (r.value <==> id in old(rows) && old(rows)[id].generation == generation)
    {
      if id !in rows { return Err(Lookup); }
      var row := rows[id];
      if row.generation != generation { return Ok(false); }
      row := row.(generation := row.generation + 1);
      row := row.(updatedAt := now);
      var flushed := Flush(id, row);
      if flushed.Err? { return Err(flushed.error); }
      bumps := bumps + [Bump(id, generation)];
      r := Ok(true);
    }
  }
}
