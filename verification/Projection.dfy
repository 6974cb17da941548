/**
 The scoreboard cache: the transactional outbox filled by the trigger on score events, the projector's
 passes over it, and the cached board of every competition. A run interleaves ledger statements with the
 statements of any number of rival passes, crashes, diversions of failed rows and rebuilds.
 */
module Projection {
  import opened Basics
  import L = Ledger
  import S = Scoreboard
  import SL = ScoreboardLaws

  type Event = L.Event

  type Rulebook = map<string, S.Rules>

  datatype Stage = Claimed | Locked | Viewed(view: set<Event>)

  datatype Pass = Pass(competition: string, claimed: set<Event>, stage: Stage)

  /** `folded` is a history variable: the events this row was computed from. */
  datatype Cached = Cached(asOf: nat, board: S.Snapshot, folded: set<Event>)

  /** An outbox row is identified with the event it refers to. */
  datatype State = State(
    db: L.Tables, pending: set<Event>, failed: set<Event>, cache: map<string, Cached>, passes: map<nat, Pass>)

  const INIT := State(L.EMPTY, {}, {}, map[], map[])

  /** Whether refolds of a competition exclude each other, and whether the upsert guard is strict. */
  datatype Config = Config(lock: bool, strict: bool)

  const SHIPPED := Config(true, false)

  datatype Step =
    | Ledger(step: L.Step)
    | Claim(p: nat, competition: string, rows: set<Event>)
    | TakeLock(p: nat)
    | Read(p: nat)
    | Publish(p: nat)
    | Crash(p: nat)
    | Divert(rows: set<Event>)
    | Rebuild

  // ---------------------------------------------------------------------------
  // The fold of one competition's events.

  function Of(events: set<Event>, competition: string): set<Event> {
    set e | e in events && e.scope.competition == competition
  }

  function AsSolve(e: Event): S.Solve
    requires e.kind.SolveEvent?
  {
    S.Solve(e.scope.team, e.scope.challenge, e.at, e.kind.submission)
  }

  function SolvesIn(events: set<Event>): set<S.Solve> { set e | e in events && e.kind.SolveEvent? :: AsSolve(e) }

  predicate Supported(events: set<Event>) { forall e | e in events :: !e.kind.Unsupported? }

  ghost function Fold(events: set<Event>, rulebook: Rulebook, competition: string): S.Outcome<S.Snapshot> {
    if competition !in rulebook then Err("competition not found")
    else if !Supported(events) then Err("unsupported event")
    else S.Board(SolvesIn(events), rulebook[competition], None)
  }

  predicate IsMaxNo(events: set<Event>, m: nat) {
    && (forall e | e in events :: e.no <= m)
    && (m == 0 || exists e | e in events :: e.no == m)
  }

  /** The refold of a listing of events. */
  method Refold(events: seq<Event>, rulebook: Rulebook, competition: string)
    returns (board: S.Outcome<S.Snapshot>, asOf: nat)
    ensures board.Ok? <==> Fold(Elems(events), rulebook, competition).Ok?
    ensures board.Ok? ==> board == Fold(Elems(events), rulebook, competition) && IsMaxNo(Elems(events), asOf)
  {
    asOf := 0;
    if competition !in rulebook { return Err("competition not found"), 0; }
    var solves: seq<S.SolveEvent> := [];
    for i := 0 to |events|
      invariant Supported(Elems(events[..i]))
      invariant S.Cores(solves) == SolvesIn(Elems(events[..i]))
      invariant IsMaxNo(Elems(events[..i]), asOf)
    {
      var e := events[i];
      assert Elems(events[..i + 1]) == Elems(events[..i]) + {e};
      if e.no > asOf { asOf := e.no; }
      assert IsMaxNo(Elems(events[..i + 1]), asOf) by { assert e in Elems(events[..i + 1]); }
      match e.kind {
        case SolveEvent(submission) =>
          var solve := S.SolveEvent(e.scope.team, e.scope.challenge, e.at, submission, None);
          CoresGrow(solves, solve);
          solves := solves + [solve];
        case Provenance =>
        case Unsupported =>
          assert e in Elems(events);
          return Err("unsupported event"), asOf;
      }
    }
    assert events[..|events|] == events;
    board := S.ComputeScoreboard(solves, rulebook[competition], None);
  }

  lemma CoresGrow(solves: seq<S.SolveEvent>, solve: S.SolveEvent)
    ensures S.Cores(solves + [solve]) == S.Cores(solves) + {S.Core(solve)}
  {
    assert forall e :: e in solves + [solve] <==> e in solves || e == solve;
  }

  ghost function MaxNo(events: set<Event>): (m: nat)
    ensures IsMaxNo(events, m)
  {
    if events == {} then 0
    else
      var e :| e in events;
      var m := MaxNo(events - {e});
      if e.no > m then e.no else m
  }

  // ---------------------------------------------------------------------------
  // Steps.

  predicate LockHeld(s: State, p: nat, competition: string) {
    exists q | q in s.passes && q != p :: s.passes[q].competition == competition && !s.passes[q].stage.Claimed?
  }

  predicate Unclaimed(s: State, rows: set<Event>) { forall q | q in s.passes :: s.passes[q].claimed !! rows }

  /** The upsert's conflict clause. */
  predicate Accepts(cfg: Config, cache: map<string, Cached>, competition: string, asOf: nat) {
    competition in cache ==>
      if cfg.strict then asOf > cache[competition].asOf else asOf >= cache[competition].asOf
  }

  ghost function Upsert(cfg: Config, cache: map<string, Cached>, competition: string,
      row: Cached): map<string, Cached>
  {
    if Accepts(cfg, cache, competition, row.asOf) then cache[competition := row] else cache
  }

  /** A pass's last transaction: upsert and delete the claimed rows, or roll back on a poisoned fold. */
  ghost function Finish(cfg: Config, rulebook: Rulebook, s: State, p: nat): State
    requires p in s.passes && s.passes[p].stage.Viewed?
  {
    var pass := s.passes[p];
    var closed := s.(passes := s.passes - {p});
    match Fold(pass.stage.view, rulebook, pass.competition)
    case Err(_) => closed
    case Ok(board) =>
      var row := Cached(MaxNo(pass.stage.view), board, pass.stage.view);
      closed.(cache := Upsert(cfg, s.cache, pass.competition, row), pending := s.pending - pass.claimed)
  }

  function AtStage(s: State, p: nat, stage: Stage): bool { p in s.passes && s.passes[p].stage == stage }

  ghost function Apply(cfg: Config, rulebook: Rulebook, s: State, step: Step): State {
    match step
    case Ledger(step) =>
      var db := L.Apply(s.db, step);
      s.(db := db, pending := s.pending + (db.events - s.db.events))
    case Claim(p, c, rows) =>
      if p in s.passes || rows == {} || !(rows <= Of(s.pending, c)) || !Unclaimed(s, rows) then s
      else s.(passes := s.passes[p := Pass(c, rows, Claimed)])
    case TakeLock(p) =>
      if !AtStage(s, p, Claimed) || (cfg.lock && LockHeld(s, p, s.passes[p].competition)) then s
      else s.(passes := s.passes[p := s.passes[p].(stage := Locked)])
    case Read(p) =>
      if !AtStage(s, p, Locked) then s
      else
        var view := Of(s.db.events, s.passes[p].competition);
        s.(passes := s.passes[p := s.passes[p].(stage := Viewed(view))])
    case Publish(p) =>
      if p !in s.passes || !s.passes[p].stage.Viewed? then s else Finish(cfg, rulebook, s, p)
    case Crash(p) => s.(passes := s.passes - {p})
    case Divert(rows) =>
      if !(rows <= s.pending) || !Unclaimed(s, rows) then s
      else s.(pending := s.pending - rows, failed := s.failed + rows)
    case Rebuild => s.(cache := map[], pending := s.db.events, failed := {})
  }

  ghost function Run(cfg: Config, rulebook: Rulebook, s: State, steps: seq<Step>): State
    decreases |steps|
  {
    if steps == [] then s else Run(cfg, rulebook, Apply(cfg, rulebook, s, steps[0]), steps[1..])
  }

  // ---------------------------------------------------------------------------
  // What every interleaving keeps.

  ghost function FoldedFor(s: State, c: string): set<Event> { if c in s.cache then s.cache[c].folded else {} }

  /** The committed events of a competition that have left the outbox. */
  ghost function Gone(s: State, c: string): set<Event> { Of(s.db.events, c) - s.pending - s.failed }

  ghost predicate Covered(s: State, c: string) { Gone(s, c) <= FoldedFor(s, c) }

  ghost predicate CacheOk(rulebook: Rulebook, s: State, c: string)
    requires c in s.cache
  {
    var row := s.cache[c];
    && row.folded <= Of(s.db.events, c)
    && row.asOf == MaxNo(row.folded)
    && Fold(row.folded, rulebook, c) == Ok(row.board)
  }

  /** A read view holds the claimed rows, all that has left the outbox, and all the cache was folded from. */
  ghost predicate ViewOk(s: State, pass: Pass) {
    pass.stage.Viewed? ==>
      && pass.stage.view <= Of(s.db.events, pass.competition)
      && pass.claimed <= pass.stage.view
      && Gone(s, pass.competition) <= pass.stage.view
      && FoldedFor(s, pass.competition) <= pass.stage.view
  }

  ghost predicate PassOk(s: State, pass: Pass) { pass.claimed <= Of(s.pending, pass.competition) && ViewOk(s, pass) }

  ghost predicate Rivals(a: Pass, b: Pass) {
    a.claimed !! b.claimed && (a.competition == b.competition ==> a.stage.Claimed? || b.stage.Claimed?)
  }

  ghost predicate PassesOk(s: State) {
    && (forall p | p in s.passes :: PassOk(s, s.passes[p]))
    && (forall p, q | p in s.passes && q in s.passes && p != q :: Rivals(s.passes[p], s.passes[q]))
  }

  ghost predicate Inv(rulebook: Rulebook, s: State) {
    && s.pending <= s.db.events && s.failed <= s.db.events
    && PassesOk(s)
    && (forall c | c in s.cache :: CacheOk(rulebook, s, c))
    && (forall c: string :: Covered(s, c))
  }

  lemma LedgerInv(rulebook: Rulebook, s: State, step: L.Step)
    requires Inv(rulebook, s)
    ensures Inv(rulebook, Apply(SHIPPED, rulebook, s, Ledger(step)))
  {
    var s' := Apply(SHIPPED, rulebook, s, Ledger(step));
    L.StepGrows(s.db, step);
    forall c: string ensures Gone(s', c) == Gone(s, c) && Covered(s', c) { assert Covered(s, c); }
    forall p | p in s'.passes ensures PassOk(s', s'.passes[p]) { assert PassOk(s, s.passes[p]); }
    forall c | c in s'.cache ensures CacheOk(rulebook, s', c) { assert CacheOk(rulebook, s, c); }
  }

  /** An event becomes visible in the outbox in the step that commits it, before any fold has seen it. */
  lemma CommitEnqueues(rulebook: Rulebook, s: State, step: L.Step, e: Event)
    requires Inv(rulebook, s) && e in L.Apply(s.db, step).events && e !in s.db.events
    ensures
      var s' := Apply(SHIPPED, rulebook, s, Ledger(step));
      e in s'.pending && e !in s'.failed && e !in FoldedFor(s', e.scope.competition)
  {
    var c := e.scope.competition;
    if c in s.cache { assert CacheOk(rulebook, s, c); }
  }

  /** Replacing one pass of an otherwise unchanged state. */
  lemma PassInv(rulebook: Rulebook, s: State, p: nat, pass: Pass)
    requires Inv(rulebook, s) && PassOk(s, pass)
    requires forall q | q in s.passes && q != p :: Rivals(pass, s.passes[q])
    ensures Inv(rulebook, s.(passes := s.passes[p := pass]))
  {
    OnePassChanges(s, p, pass);
    SameTables(rulebook, s, s.passes[p := pass]);
  }

  lemma OnePassChanges(s: State, p: nat, pass: Pass)
    requires PassesOk(s) && PassOk(s, pass)
    requires forall q | q in s.passes && q != p :: Rivals(pass, s.passes[q])
    ensures PassesOk(s.(passes := s.passes[p := pass]))
  {
    var s' := s.(passes := s.passes[p := pass]);
    forall q | q in s'.passes ensures PassOk(s', s'.passes[q]) {
      if q != p { assert PassOk(s, s.passes[q]); }
      assert Gone(s', s'.passes[q].competition) == Gone(s, s'.passes[q].competition);
    }
    forall q, r | q in s'.passes && r in s'.passes && q != r ensures Rivals(s'.passes[q], s'.passes[r]) {
      if q == p { assert Rivals(pass, s.passes[r]); } else if r == p { assert Rivals(pass, s.passes[q]); }
    }
  }

  lemma ClaimInv(rulebook: Rulebook, s: State, p: nat, c: string, rows: set<Event>)
    requires Inv(rulebook, s)
    ensures Inv(rulebook, Apply(SHIPPED, rulebook, s, Claim(p, c, rows)))
  {
    if p !in s.passes && rows <= Of(s.pending, c) && Unclaimed(s, rows) {
      PassInv(rulebook, s, p, Pass(c, rows, Claimed));
    }
  }

  lemma TakeLockInv(rulebook: Rulebook, s: State, p: nat)
    requires Inv(rulebook, s)
    ensures Inv(rulebook, Apply(SHIPPED, rulebook, s, TakeLock(p)))
  {
    if AtStage(s, p, Claimed) && !LockHeld(s, p, s.passes[p].competition) {
      assert PassOk(s, s.passes[p]);
      var pass := s.passes[p].(stage := Locked);
      forall q | q in s.passes && q != p ensures Rivals(pass, s.passes[q]) {
        assert Rivals(s.passes[p], s.passes[q]);
      }
      PassInv(rulebook, s, p, pass);
    }
  }

  lemma ReadInv(rulebook: Rulebook, s: State, p: nat)
    requires Inv(rulebook, s)
    ensures Inv(rulebook, Apply(SHIPPED, rulebook, s, Read(p)))
  {
    if AtStage(s, p, Locked) {
      var c := s.passes[p].competition;
      assert PassOk(s, s.passes[p]) && Covered(s, c);
      if c in s.cache { assert CacheOk(rulebook, s, c); }
      var pass := s.passes[p].(stage := Viewed(Of(s.db.events, c)));
      forall q | q in s.passes && q != p ensures Rivals(pass, s.passes[q]) {
        assert Rivals(s.passes[p], s.passes[q]);
      }
      PassInv(rulebook, s, p, pass);
    }
  }

  /** Fewer passes over the same tables. */
  lemma FewerPasses(s: State, passes: map<nat, Pass>)
    requires PassesOk(s) && forall q | q in passes :: q in s.passes && passes[q] == s.passes[q]
    ensures PassesOk(s.(passes := passes))
  {
    var s' := s.(passes := passes);
    forall q | q in s'.passes ensures PassOk(s', s'.passes[q]) {
      assert PassOk(s, s.passes[q]);
      assert Gone(s', s.passes[q].competition) == Gone(s, s.passes[q].competition);
    }
    forall q, r | q in passes && r in passes && q != r ensures Rivals(passes[q], passes[r]) {
      assert Rivals(s.passes[q], s.passes[r]);
    }
  }

  /** Only the passes change. */
  lemma SameTables(rulebook: Rulebook, s: State, passes: map<nat, Pass>)
    requires Inv(rulebook, s)
    ensures
      var s' := s.(passes := passes);
      && (forall c | c in s'.cache :: CacheOk(rulebook, s', c))
      && (forall c: string :: Covered(s', c))
  {
    var s' := s.(passes := passes);
    forall c: string ensures Covered(s', c) { assert Covered(s, c); }
    forall c | c in s'.cache ensures CacheOk(rulebook, s', c) { assert CacheOk(rulebook, s, c); }
  }

  lemma CrashInv(rulebook: Rulebook, s: State, p: nat)
    requires Inv(rulebook, s)
    ensures Inv(rulebook, Apply(SHIPPED, rulebook, s, Crash(p)))
  {
    FewerPasses(s, s.passes - {p});
    SameTables(rulebook, s, s.passes - {p});
  }

  lemma DivertInv(rulebook: Rulebook, s: State, rows: set<Event>)
    requires Inv(rulebook, s)
    ensures Inv(rulebook, Apply(SHIPPED, rulebook, s, Divert(rows)))
  {
    var s' := Apply(SHIPPED, rulebook, s, Divert(rows));
    if rows <= s.pending && Unclaimed(s, rows) {
      forall c: string ensures Gone(s', c) == Gone(s, c) && Covered(s', c) { assert Covered(s, c); }
      forall q | q in s'.passes ensures PassOk(s', s'.passes[q]) { assert PassOk(s, s.passes[q]); }
      forall c | c in s'.cache ensures CacheOk(rulebook, s', c) { assert CacheOk(rulebook, s, c); }
    }
  }

  lemma RebuildInv(rulebook: Rulebook, s: State)
    requires Inv(rulebook, s)
    ensures Inv(rulebook, Apply(SHIPPED, rulebook, s, Rebuild))
  {
    var s' := Apply(SHIPPED, rulebook, s, Rebuild);
    forall c: string ensures Gone(s', c) == {} && Covered(s', c) {}
    forall q | q in s'.passes ensures PassOk(s', s'.passes[q]) { assert PassOk(s, s.passes[q]); }
  }

  /** Under the lock the view is at least as new as the cached row, so the upsert is never rejected. */
  lemma GuardAccepts(rulebook: Rulebook, s: State, p: nat)
    requires Inv(rulebook, s) && p in s.passes && s.passes[p].stage.Viewed?
    ensures Accepts(SHIPPED, s.cache, s.passes[p].competition, MaxNo(s.passes[p].stage.view))
  {
    var c := s.passes[p].competition;
    assert PassOk(s, s.passes[p]);
    if c in s.cache {
      assert CacheOk(rulebook, s, c);
    }
  }

  lemma PublishInv(rulebook: Rulebook, s: State, p: nat)
    requires Inv(rulebook, s)
    ensures Inv(rulebook, Apply(SHIPPED, rulebook, s, Publish(p)))
  {
    if p in s.passes && s.passes[p].stage.Viewed? {
      var pass := s.passes[p];
      if Fold(pass.stage.view, rulebook, pass.competition).Err? {
        CrashInv(rulebook, s, p);
      } else {
        GuardAccepts(rulebook, s, p);
        assert PassOk(s, pass);
        PublishedPasses(rulebook, s, p);
        PublishedCache(rulebook, s, p);
      }
    }
  }

  lemma PublishedPasses(rulebook: Rulebook, s: State, p: nat)
    requires Inv(rulebook, s) && p in s.passes && s.passes[p].stage.Viewed?
    requires Fold(s.passes[p].stage.view, rulebook, s.passes[p].competition).Ok?
    ensures PassesOk(Finish(SHIPPED, rulebook, s, p))
  {
    var pass, s' := s.passes[p], Finish(SHIPPED, rulebook, s, p);
    assert PassOk(s, pass);
    forall q | q in s'.passes ensures PassOk(s', s'.passes[q]) {
      var other := s.passes[q];
      assert PassOk(s, other) && Rivals(pass, other);
      if other.competition != pass.competition {
        assert Gone(s', other.competition) == Gone(s, other.competition);
      }
    }
  }

  lemma PublishedCache(rulebook: Rulebook, s: State, p: nat)
    requires Inv(rulebook, s) && p in s.passes && s.passes[p].stage.Viewed?
    requires Fold(s.passes[p].stage.view, rulebook, s.passes[p].competition).Ok?
    ensures
      var s' := Finish(SHIPPED, rulebook, s, p);
      (forall c | c in s'.cache :: CacheOk(rulebook, s', c)) && forall c: string :: Covered(s', c)
  {
    var pass, s' := s.passes[p], Finish(SHIPPED, rulebook, s, p);
    assert PassOk(s, pass);
    GuardAccepts(rulebook, s, p);
    forall c | c in s'.cache ensures CacheOk(rulebook, s', c) {
      if c != pass.competition { assert CacheOk(rulebook, s, c); }
    }
    forall c: string ensures Covered(s', c) {
      assert Covered(s, c);
      if c != pass.competition { assert Gone(s', c) == Gone(s, c); }
      else { assert Gone(s', c) <= Gone(s, c) + pass.claimed; }
    }
  }

  lemma StepInv(rulebook: Rulebook, s: State, step: Step)
    requires Inv(rulebook, s)
    ensures Inv(rulebook, Apply(SHIPPED, rulebook, s, step))
  {
    match step
    case Ledger(l) => LedgerInv(rulebook, s, l);
    case Claim(p, c, rows) => ClaimInv(rulebook, s, p, c, rows);
    case TakeLock(p) => TakeLockInv(rulebook, s, p);
    case Read(p) => ReadInv(rulebook, s, p);
    case Publish(p) => PublishInv(rulebook, s, p);
    case Crash(p) => CrashInv(rulebook, s, p);
    case Divert(rows) => DivertInv(rulebook, s, rows);
    case Rebuild => RebuildInv(rulebook, s);
  }

  /** What every step keeps, every run keeps. */
  lemma {:induction false} RunKeeps(rulebook: Rulebook, keeps: State -> bool, s: State, steps: seq<Step>)
    requires keeps(s)
    requires forall x, step | keeps(x) :: keeps(Apply(SHIPPED, rulebook, x, step))
    ensures keeps(Run(SHIPPED, rulebook, s, steps))
    decreases |steps|
  {
    if steps != [] { RunKeeps(rulebook, keeps, Apply(SHIPPED, rulebook, s, steps[0]), steps[1..]); }
  }

  lemma RunInv(rulebook: Rulebook, s: State, steps: seq<Step>)
    requires Inv(rulebook, s)
    ensures Inv(rulebook, Run(SHIPPED, rulebook, s, steps))
  {
    var keeps := (x: State) => Inv(rulebook, x);
    forall x, step | keeps(x) ensures keeps(Apply(SHIPPED, rulebook, x, step)) { StepInv(rulebook, x, step); }
    RunKeeps(rulebook, keeps, s, steps);
  }

  lemma RunLedgerInv(rulebook: Rulebook, s: State, steps: seq<Step>)
    requires L.Inv(s.db)
    ensures L.Inv(Run(SHIPPED, rulebook, s, steps).db)
  {
    var keeps := (x: State) => L.Inv(x.db);
    forall x, step | keeps(x) ensures keeps(Apply(SHIPPED, rulebook, x, step)) { LedgerStepInv(rulebook, x, step); }
    RunKeeps(rulebook, keeps, s, steps);
  }

  lemma LedgerStepInv(rulebook: Rulebook, s: State, step: Step)
    requires L.Inv(s.db)
    ensures L.Inv(Apply(SHIPPED, rulebook, s, step).db)
  {
    if step.Ledger? { L.StepInv(s.db, step.step); }
  }

  // ---------------------------------------------------------------------------
  // Main results.

  /** Every committed event is still in the outbox or inside the cached fold of its competition. */
  ghost predicate Complete(s: State) {
    forall e | e in s.db.events :: e in s.pending || e in s.failed || e in FoldedFor(s, e.scope.competition)
  }

  ghost predicate Drained(s: State, c: string) { Of(s.pending + s.failed, c) == {} }

  lemma ShippedComplete(rulebook: Rulebook, steps: seq<Step>)
    ensures Complete(Run(SHIPPED, rulebook, INIT, steps))
  {
    RunInv(rulebook, INIT, steps);
    var s := Run(SHIPPED, rulebook, INIT, steps);
    forall e | e in s.db.events ensures e in s.pending || e in s.failed || e in FoldedFor(s, e.scope.competition) {
      assert Covered(s, e.scope.competition);
      assert e in s.pending || e in s.failed || e in Gone(s, e.scope.competition);
    }
  }

  /** A drained competition's cached board is the from-scratch refold of its committed events, and that is
      the board of its rows in the solves table. */
  lemma DrainedBoard(rulebook: Rulebook, steps: seq<Step>, c: string)
    ensures
      var s := Run(SHIPPED, rulebook, INIT, steps);
      Drained(s, c) && Of(s.db.events, c) != {} ==>
        && c in s.cache
        && s.cache[c].asOf == MaxNo(Of(s.db.events, c))
        && Fold(Of(s.db.events, c), rulebook, c) == Ok(s.cache[c].board)
        && S.Board(TableSolves(s.db.solves, c), rulebook[c], None) == Ok(s.cache[c].board)
  {
    RunInv(rulebook, INIT, steps);
    var s := Run(SHIPPED, rulebook, INIT, steps);
    if Drained(s, c) && Of(s.db.events, c) != {} {
      DrainedFoldedAll(rulebook, s, c);
      RunLedgerInv(rulebook, INIT, steps);
      SolvesInTable(s.db, c);
    }
  }

  lemma DrainedFoldedAll(rulebook: Rulebook, s: State, c: string)
    requires Inv(rulebook, s) && Drained(s, c) && Of(s.db.events, c) != {}
    ensures c in s.cache && s.cache[c].folded == Of(s.db.events, c) && CacheOk(rulebook, s, c)
  {
    assert Covered(s, c);
    forall e | e in Of(s.db.events, c) ensures e in FoldedFor(s, c) {
      assert e !in Of(s.pending + s.failed, c);
      assert e in Gone(s, c);
    }
    assert CacheOk(rulebook, s, c);
  }

  ghost function TableSolves(solves: set<L.Solve>, c: string): set<S.Solve> {
    set v | v in solves && v.scope.competition == c :: S.Solve(v.scope.team, v.scope.challenge, v.at, v.submission)
  }

  lemma SolvesInTable(db: L.Tables, c: string)
    requires L.Inv(db)
    ensures SolvesIn(Of(db.events, c)) == TableSolves(db.solves, c)
  {
    forall a | a in SolvesIn(Of(db.events, c)) ensures a in TableSolves(db.solves, c) {
      var e :| e in Of(db.events, c) && e.kind.SolveEvent? && AsSolve(e) == a;
      assert L.Solve(e.scope, e.kind.submission, e.at) in db.solves;
    }
    forall a | a in TableSolves(db.solves, c) ensures a in SolvesIn(Of(db.events, c)) {
      var v :| v in db.solves && v.scope.competition == c
               && S.Solve(v.scope.team, v.scope.challenge, v.at, v.submission) == a;
      assert L.Witnessed(db.events, v);
      var no: nat :| L.EventOf(no, v) in db.events;
      assert L.EventOf(no, v) in Of(db.events, c);
    }
  }

  /** An event the fold does not support is never dropped from the outbox, nor folded. */
  lemma PoisonStays(rulebook: Rulebook, steps: seq<Step>, e: Event)
    ensures
      var s := Run(SHIPPED, rulebook, INIT, steps);
      e in s.db.events && e.kind.Unsupported? ==>
        (e in s.pending || e in s.failed) && e !in FoldedFor(s, e.scope.competition)
  {
    RunInv(rulebook, INIT, steps);
    ShippedComplete(rulebook, steps);
    if e.kind.Unsupported? { PoisonUnfolded(rulebook, Run(SHIPPED, rulebook, INIT, steps), e); }
  }

  lemma PoisonUnfolded(rulebook: Rulebook, s: State, e: Event)
    requires Inv(rulebook, s) && e.kind.Unsupported?
    ensures e !in FoldedFor(s, e.scope.competition)
  {
    var c := e.scope.competition;
    if c in s.cache { assert CacheOk(rulebook, s, c); }
  }

  /** One pass that runs alone refolds everything committed and removes exactly the rows it claimed. */
  lemma LonePass(rulebook: Rulebook, s: State, p: nat, c: string, rows: set<Event>)
    requires Inv(rulebook, s) && s.passes == map[]
    requires rows != {} && rows <= Of(s.pending, c)
    requires Fold(Of(s.db.events, c), rulebook, c).Ok?
    ensures
      var all := Of(s.db.events, c);
      Run(SHIPPED, rulebook, s, [Claim(p, c, rows), TakeLock(p), Read(p), Publish(p)])
      == s.(cache := s.cache[c := Cached(MaxNo(all), Fold(all, rulebook, c).value, all)], pending := s.pending - rows)
  {
    LonePassReads(rulebook, s, p, c, rows);
    LonePassPublishes(rulebook, s, p, c, rows);
    RunFour(rulebook, s, Claim(p, c, rows), TakeLock(p), Read(p), Publish(p));
  }

  function Opened(s: State, p: nat, c: string, rows: set<Event>, stage: Stage): State {
    s.(passes := s.passes[p := Pass(c, rows, stage)])
  }

  lemma LonePassReads(rulebook: Rulebook, s: State, p: nat, c: string, rows: set<Event>)
    requires s.passes == map[] && rows != {} && rows <= Of(s.pending, c)
    ensures Apply(SHIPPED, rulebook, s, Claim(p, c, rows)) == Opened(s, p, c, rows, Claimed)
    ensures Apply(SHIPPED, rulebook, Opened(s, p, c, rows, Claimed), TakeLock(p)) == Opened(s, p, c, rows, Locked)
    ensures Apply(SHIPPED, rulebook, Opened(s, p, c, rows, Locked), Read(p))
         == Opened(s, p, c, rows, Viewed(Of(s.db.events, c)))
  {
    var s1 := Opened(s, p, c, rows, Claimed);
    assert !LockHeld(s1, p, c);
    assert s1.passes[p := s1.passes[p].(stage := Locked)] == Opened(s, p, c, rows, Locked).passes;
    var s2 := Opened(s, p, c, rows, Locked);
    var view := Of(s.db.events, c);
    assert s2.passes[p := s2.passes[p].(stage := Viewed(view))] == Opened(s, p, c, rows, Viewed(view)).passes;
  }

  lemma LonePassPublishes(rulebook: Rulebook, s: State, p: nat, c: string, rows: set<Event>)
    requires Inv(rulebook, s) && s.passes == map[]
    requires Fold(Of(s.db.events, c), rulebook, c).Ok?
    ensures
      var all := Of(s.db.events, c);
      Apply(SHIPPED, rulebook, Opened(s, p, c, rows, Viewed(all)), Publish(p))
      == s.(cache := s.cache[c := Cached(MaxNo(all), Fold(all, rulebook, c).value, all)], pending := s.pending - rows)
  {
    var all := Of(s.db.events, c);
    AllIsNewest(rulebook, s, c);
    PublishedAlone(rulebook, s, p, c, rows, all);
  }


  lemma AllIsNewest(rulebook: Rulebook, s: State, c: string)
    requires Inv(rulebook, s)
    ensures Accepts(SHIPPED, s.cache, c, MaxNo(Of(s.db.events, c)))
  {
    if c in s.cache {
      assert CacheOk(rulebook, s, c);
    }
  }


  lemma PublishedAlone(rulebook: Rulebook, s: State, p: nat, c: string, rows: set<Event>, view: set<Event>)
    requires s.passes == map[] && Fold(view, rulebook, c).Ok? && Accepts(SHIPPED, s.cache, c, MaxNo(view))
    ensures
      Apply(SHIPPED, rulebook, Opened(s, p, c, rows, Viewed(view)), Publish(p))
      == s.(cache := s.cache[c := Cached(MaxNo(view), Fold(view, rulebook, c).value, view)],
          pending := s.pending - rows)
  {
    var open := Opened(s, p, c, rows, Viewed(view));
    assert open.passes[p] == Pass(c, rows, Viewed(view));
    FinishOk(rulebook, open, p, Cached(MaxNo(view), Fold(view, rulebook, c).value, view));
    ClosesAgain(s, p, c, rows, Viewed(view));
  }


  lemma ClosesAgain(s: State, p: nat, c: string, rows: set<Event>, stage: Stage)
    requires s.passes == map[]
    ensures
      var open := Opened(s, p, c, rows, stage);
      open.(passes := open.passes - {p}) == s
  {
    assert Opened(s, p, c, rows, stage).passes - {p} == s.passes;
  }

  lemma FinishOk(rulebook: Rulebook, s: State, p: nat, row: Cached)
    requires p in s.passes && s.passes[p].stage.Viewed?
    requires Fold(s.passes[p].stage.view, rulebook, s.passes[p].competition) == Ok(row.board)
    requires row.asOf == MaxNo(s.passes[p].stage.view) && row.folded == s.passes[p].stage.view
    requires Accepts(SHIPPED, s.cache, s.passes[p].competition, row.asOf)
    ensures
      Apply(SHIPPED, rulebook, s, Publish(p))
      == s.(passes := s.passes - {p}).(
           cache := s.cache[s.passes[p].competition := row], pending := s.pending - s.passes[p].claimed)
  {}

  lemma RunFour(rulebook: Rulebook, s: State, a: Step, b: Step, c: Step, d: Step)
    ensures
      var s1 := Apply(SHIPPED, rulebook, s, a);
      var s2 := Apply(SHIPPED, rulebook, s1, b);
      var s3 := Apply(SHIPPED, rulebook, s2, c);
      Run(SHIPPED, rulebook, s, [a, b, c, d]) == Apply(SHIPPED, rulebook, s3, d)
  {
    var s1 := Apply(SHIPPED, rulebook, s, a);
    var s2 := Apply(SHIPPED, rulebook, s1, b);
    var s3 := Apply(SHIPPED, rulebook, s2, c);
    assert [a, b, c, d][1..] == [b, c, d] && [b, c, d][1..] == [c, d] && [c, d][1..] == [d];
    var s4 := Apply(SHIPPED, rulebook, s3, d);
    assert Run(SHIPPED, rulebook, s4, []) == s4;
    assert Run(SHIPPED, rulebook, s3, [d]) == s4;
    assert Run(SHIPPED, rulebook, s2, [c, d]) == s4;
  }

  /** Passes that crash leave no trace but their absence. */
  lemma {:induction false} CrashAll(rulebook: Rulebook, s: State, ps: set<nat>) returns (steps: seq<Step>)
    requires s.passes.Keys == ps
    ensures Run(SHIPPED, rulebook, s, steps) == s.(passes := map[])
    decreases |ps|
  {
    if ps == {} {
      steps := [];
    } else {
      var p :| p in ps;
      var s' := Apply(SHIPPED, rulebook, s, Crash(p));
      assert s'.passes.Keys == ps - {p};
      var rest := CrashAll(rulebook, s', ps - {p});
      steps := [Crash(p)] + rest;
      assert steps[0] == Crash(p) && steps[1..] == rest;
    }
  }

  /** A competition without diverted rows whose fold succeeds can always be drained, whatever passes are under
      way: let them die and run one pass over what is pending. */
  lemma CanDrain(rulebook: Rulebook, s: State, c: string) returns (steps: seq<Step>)
    requires Inv(rulebook, s) && Of(s.failed, c) == {} && Fold(Of(s.db.events, c), rulebook, c).Ok?
    ensures Drained(Run(SHIPPED, rulebook, s, steps), c) && Run(SHIPPED, rulebook, s, steps).db == s.db
  {
    var crashes := CrashAll(rulebook, s, s.passes.Keys);
    var quiet := s.(passes := map[]);
    var rows := Of(s.pending, c);
    if rows == {} {
      steps := crashes;
    } else {
      RunInv(rulebook, s, crashes);
      var pass := [Claim(0, c, rows), TakeLock(0), Read(0), Publish(0)];
      LonePass(rulebook, quiet, 0, c, rows);
      RunConcat(SHIPPED, rulebook, s, crashes, pass);
      steps := crashes + pass;
    }
  }

  lemma {:induction false} RunConcat(cfg: Config, rulebook: Rulebook, s: State, a: seq<Step>, b: seq<Step>)
    ensures Run(cfg, rulebook, s, a + b) == Run(cfg, rulebook, Run(cfg, rulebook, s, a), b)
    decreases |a|
  {
    if a == [] {
      assert a + b == b;
    } else {
      assert (a + b)[1..] == a[1..] + b;
      RunConcat(cfg, rulebook, Apply(cfg, rulebook, s, a[0]), a[1..], b);
    }
  }

  // ---------------------------------------------------------------------------
  // Which configurations are safe.

  ghost predicate Reachable(cfg: Config, rulebook: Rulebook, s: State) {
    exists steps :: Run(cfg, rulebook, INIT, steps) == s
  }

  lemma {:induction false} RunSnoc(cfg: Config, rulebook: Rulebook, s: State, steps: seq<Step>, step: Step)
    ensures Run(cfg, rulebook, s, steps + [step]) == Apply(cfg, rulebook, Run(cfg, rulebook, s, steps), step)
    decreases |steps|
  {
    if steps == [] {
      assert Run(cfg, rulebook, Apply(cfg, rulebook, s, step), [step][1..]) == Apply(cfg, rulebook, s, step);
      assert steps + [step] == [step];
    } else {
      assert (steps + [step])[1..] == steps[1..] + [step];
      RunSnoc(cfg, rulebook, Apply(cfg, rulebook, s, steps[0]), steps[1..], step);
    }
  }

  lemma Next(cfg: Config, rulebook: Rulebook, s: State, step: Step) returns (s': State)
    requires Reachable(cfg, rulebook, s)
    ensures s' == Apply(cfg, rulebook, s, step) && Reachable(cfg, rulebook, s')
  {
    s' := Apply(cfg, rulebook, s, step);
    var steps :| Run(cfg, rulebook, INIT, steps) == s;
    RunSnoc(cfg, rulebook, INIT, steps, step);
  }

  /** Ledger statements that commit no event leave everything else alone. */
  lemma {:induction false} LedgerSteps(cfg: Config, rulebook: Rulebook, s: State,
      steps: seq<L.Step>) returns (s': State)
    requires Reachable(cfg, rulebook, s) && L.Run(s.db, steps).events == s.db.events
    ensures Reachable(cfg, rulebook, s') && s' == s.(db := L.Run(s.db, steps))
    decreases |steps|
  {
    if steps == [] {
      s' := s;
    } else {
      s' := Next(cfg, rulebook, s, Ledger(steps[0]));
      L.StepGrows(s.db, steps[0]);
      L.LedgerGrows(s'.db, steps[1..]);
      assert s' == s.(db := L.Apply(s.db, steps[0]));
      s' := LedgerSteps(cfg, rulebook, s', steps[1..]);
    }
  }

  /** Two teams solve the same challenge, each with its first correct attempt. */
  function Attempt(n: nat, c: string, challenge: string): L.Request {
    if n == 1 then L.Request("s1", L.Scope(c, "one", challenge), 1, true)
    else L.Request("s2", L.Scope(c, "two", challenge), 2, true)
  }

  function Won(n: nat, c: string, challenge: string): Event { L.EventOf(n, L.SolveOf(Attempt(n, c, challenge))) }

  /** The transaction of an attempt, all its rows written and none committed. */
  function Ready(n: nat, c: string, challenge: string): L.Txn {
    var req := Attempt(n, c, challenge);
    L.Submitting(req, L.Ready, Some(L.RowOf(req)), Some(L.SolveOf(req)), Some(Won(n, c, challenge)))
  }

  lemma SolveReady(cfg: Config, rulebook: Rulebook, s: State, n: nat, c: string, challenge: string) returns (s': State)
    requires Reachable(cfg, rulebook, s) && (n == 1 || n == 2) && s.db.nextNo == n
    requires s.db.submissions == {} && s.db.solves == {} && s.db.events == {}
    requires s.db.txns == if n == 1 then map[] else map[1 := Ready(1, c, challenge)]
    ensures Reachable(cfg, rulebook, s')
    ensures s' == s.(db := s.db.(txns := s.db.txns[n := Ready(n, c, challenge)], nextNo := n + 1))
  {
    var req := Attempt(n, c, challenge);
    assert !L.SubmissionKnown(s.db, req.id) && !L.Solved(s.db.solves, req.scope);
    L.FirstCorrectAttempt(s.db, n, req);
    s' := LedgerSteps(cfg, rulebook, s, L.AttemptSteps(n, req));
  }

  lemma HigherCommits(cfg: Config, rulebook: Rulebook, s: State, c: string, challenge: string) returns (s': State)
    requires Reachable(cfg, rulebook, s) && s.db.events == {}
    requires s.db.txns == map[1 := Ready(1, c, challenge), 2 := Ready(2, c, challenge)]
    ensures Reachable(cfg, rulebook, s') && s'.db.txns == map[1 := Ready(1, c, challenge)]
    ensures s'.db.events == {Won(2, c, challenge)} && s'.pending == s.pending + {Won(2, c, challenge)}
    ensures s'.failed == s.failed && s'.cache == s.cache && s'.passes == s.passes
  {
    s' := Next(cfg, rulebook, s, Ledger(L.Commit(2)));
    assert s'.db.txns == map[1 := Ready(1, c, challenge)];
  }

  /** The attempts get events 1 and 2; only the second has committed. */
  lemma HigherCommitsFirst(cfg: Config, rulebook: Rulebook, c: string, challenge: string) returns (s: State)
    ensures Reachable(cfg, rulebook, s)
    ensures s.db.events == {Won(2, c, challenge)} == s.pending
    ensures s.failed == {} && s.cache == map[] && s.passes == map[]
    ensures s.db.txns == map[1 := Ready(1, c, challenge)]
  {
    assert Run(cfg, rulebook, INIT, []) == INIT;
    s := SolveReady(cfg, rulebook, INIT, 1, c, challenge);
    s := SolveReady(cfg, rulebook, s, 2, c, challenge);
    s := HigherCommits(cfg, rulebook, s, c, challenge);
  }

  /** A pass claims rows and reads the competition's events. */
  lemma ClaimAndRead(cfg: Config, rulebook: Rulebook, s: State, p: nat, c: string, rows: set<Event>) returns (s': State)
    requires Reachable(cfg, rulebook, s)
    requires p !in s.passes && rows != {} && rows <= Of(s.pending, c) && Unclaimed(s, rows)
    requires cfg.lock ==> s.passes == map[]
    ensures Reachable(cfg, rulebook, s')
    ensures s' == s.(passes := s.passes[p := Pass(c, rows, Viewed(Of(s.db.events, c)))])
  {
    s' := Next(cfg, rulebook, s, Claim(p, c, rows));
    s' := Next(cfg, rulebook, s', TakeLock(p));
    s' := Next(cfg, rulebook, s', Read(p));
  }

  /** Event 1 commits. */
  lemma LowerCommits(cfg: Config, rulebook: Rulebook, s: State, c: string, challenge: string) returns (s': State)
    requires Reachable(cfg, rulebook, s)
    requires s.db.txns == map[1 := Ready(1, c, challenge)] && s.db.events == {Won(2, c, challenge)}
    ensures Reachable(cfg, rulebook, s')
    ensures s'.db.events == {Won(1, c, challenge), Won(2, c, challenge)}
    ensures s'.pending == s.pending + {Won(1, c, challenge)}
    ensures s'.failed == s.failed && s'.cache == s.cache && s'.passes == s.passes
  {
    s' := Next(cfg, rulebook, s, Ledger(L.Commit(1)));
    assert s'.db.events == {Won(1, c, challenge), Won(2, c, challenge)};
  }

  ghost predicate Scorable(rulebook: Rulebook, c: string, challenge: string) {
    c in rulebook && S.Resolve(challenge, rulebook[c]).Some?
  }

  ghost function TeamsOn(board: S.Snapshot): set<string> { set e | e in board.entries :: e.team }

  /** The two events fold, alone or together, and together they are another board than the second alone. */
  lemma WonFold(events: set<Event>, rulebook: Rulebook, c: string, challenge: string)
    requires Scorable(rulebook, c, challenge) && events <= {Won(1, c, challenge), Won(2, c, challenge)}
    ensures Fold(events, rulebook, c).Ok?
    ensures forall team ::
      team in TeamsOn(Fold(events, rulebook, c).value) <==> exists e | e in events :: e.scope.team == team
  {
    var solves := SolvesIn(events);
    assert Supported(events);
    assert S.InTime(solves, None) == solves;
    assert S.Missing(solves, rulebook[c]) == {};
    ElemsNonEmpty(Enumerate(S.Missing(solves, rulebook[c])));
    SL.Ranking(solves, rulebook[c], None);
    assert S.TeamsOf(solves) == (set e | e in events :: e.scope.team) by {
      forall e | e in events ensures e.scope.team in S.TeamsOf(solves) { assert AsSolve(e) in solves; }
    }
  }

  lemma BoardsDiffer(rulebook: Rulebook, c: string, challenge: string)
    requires Scorable(rulebook, c, challenge)
    ensures
      var one, two := Won(1, c, challenge), Won(2, c, challenge);
      Fold({two}, rulebook, c).Ok? && Fold({one, two}, rulebook, c).Ok?
      && Fold({two}, rulebook, c) != Fold({one, two}, rulebook, c)
  {
    var one, two := Won(1, c, challenge), Won(2, c, challenge);
    WonFold({two}, rulebook, c, challenge);
    WonFold({one, two}, rulebook, c, challenge);
    assert one in {one, two} && one.scope.team == "one";
    TeamsTell(Fold({two}, rulebook, c), Fold({one, two}, rulebook, c), "one");
  }

  lemma TeamsTell(a: S.Outcome<S.Snapshot>, b: S.Outcome<S.Snapshot>, team: string)
    requires a.Ok? && b.Ok? && team !in TeamsOn(a.value) && team in TeamsOn(b.value)
    ensures a != b
  {}

  lemma MaxNoIs(events: set<Event>, e: Event)
    requires e in events && forall f | f in events :: f.no <= e.no
    ensures MaxNo(events) == e.no
  {
  }

  /** Without the lock two passes hold views of the same competition, the older one without event 1. */
  lemma RivalViews(cfg: Config, rulebook: Rulebook, c: string, challenge: string) returns (s: State)
    requires !cfg.lock
    ensures Reachable(cfg, rulebook, s)
    ensures
      var one, two := Won(1, c, challenge), Won(2, c, challenge);
      && s.db.events == {one, two} == s.pending && s.failed == {} && s.cache == map[]
      && s.passes == map[1 := Pass(c, {two}, Viewed({two})), 2 := Pass(c, {one}, Viewed({one, two}))]
  {
    var one, two := Won(1, c, challenge), Won(2, c, challenge);
    s := HigherCommitsFirst(cfg, rulebook, c, challenge);
    assert Of(s.db.events, c) == {two} == Of(s.pending, c);
    s := ClaimAndRead(cfg, rulebook, s, 1, c, {two});
    s := LowerCommits(cfg, rulebook, s, c, challenge);
    assert Of(s.db.events, c) == {one, two} == Of(s.pending, c);
    s := ClaimAndRead(cfg, rulebook, s, 2, c, {one});
  }

  /** What an accepted publish leaves. */
  lemma Accepted(cfg: Config, rulebook: Rulebook, s: State, p: nat, view: set<Event>, top: Event) returns (s': State)
    requires Reachable(cfg, rulebook, s)
    requires p in s.passes && s.passes[p].stage == Viewed(view)
    requires Fold(view, rulebook, s.passes[p].competition).Ok?
    requires top in view && forall e | e in view :: e.no <= top.no
    requires Accepts(cfg, s.cache, s.passes[p].competition, top.no)
    ensures Reachable(cfg, rulebook, s')
    ensures
      var c := s.passes[p].competition;
      && s'.db == s.db && s'.failed == s.failed && s'.passes == s.passes - {p}
      && s'.pending == s.pending - s.passes[p].claimed
      && c in s'.cache && s'.cache[c] == Cached(top.no, Fold(view, rulebook, c).value, view)
  {
    MaxNoIs(view, top);
    s' := Next(cfg, rulebook, s, Publish(p));
  }

  /** The outbox is empty and the cached board is not the refold of the committed events. */
  ghost predicate WrongBoard(rulebook: Rulebook, s: State, c: string) {
    && Drained(s, c) && c in s.cache
    && Fold(Of(s.db.events, c), rulebook, c).Ok?
    && Fold(Of(s.db.events, c), rulebook, c) != Ok(s.cache[c].board)
  }

  /** The slow pass overwrites a newer fold that has the same highest number. */
  lemma UnlockedLoses(cfg: Config, rulebook: Rulebook, c: string, challenge: string) returns (s: State)
    requires !cfg.lock && !cfg.strict && Scorable(rulebook, c, challenge)
    ensures Reachable(cfg, rulebook, s) && WrongBoard(rulebook, s, c) && !BoardsRight(rulebook, s) && !Complete(s)
  {
    var one, two := Won(1, c, challenge), Won(2, c, challenge);
    s := RivalViews(cfg, rulebook, c, challenge);
    BoardsDiffer(rulebook, c, challenge);
    s := Accepted(cfg, rulebook, s, 2, {one, two}, two);
    s := Accepted(cfg, rulebook, s, 1, {two}, two);
    LostOne(rulebook, s, c, challenge);
  }

  /** Event 1 is committed and gone from the outbox, but the cached board is that of event 2 alone. */
  lemma LostOne(rulebook: Rulebook, s: State, c: string, challenge: string)
    requires Scorable(rulebook, c, challenge)
    requires s.db.events == {Won(1, c, challenge), Won(2, c, challenge)} && s.pending == {} && s.failed == {}
    requires c in s.cache && s.cache[c].folded == {Won(2, c, challenge)}
    requires Fold({Won(2, c, challenge)}, rulebook, c) == Ok(s.cache[c].board)
    ensures WrongBoard(rulebook, s, c) && !BoardsRight(rulebook, s) && !Complete(s)
  {
    var one, two := Won(1, c, challenge), Won(2, c, challenge);
    BoardsDiffer(rulebook, c, challenge);
    assert Of(s.db.events, c) == {one, two};
    assert one != two;
    assert one in s.db.events && one !in FoldedFor(s, one.scope.competition);
    WrongIsNotRight(rulebook, s, c);
  }

  /** What a rejected publish leaves: the claimed rows are deleted all the same. */
  lemma Rejected(cfg: Config, rulebook: Rulebook, s: State, p: nat, view: set<Event>, top: Event) returns (s': State)
    requires Reachable(cfg, rulebook, s)
    requires p in s.passes && s.passes[p].stage == Viewed(view)
    requires Fold(view, rulebook, s.passes[p].competition).Ok?
    requires top in view && forall e | e in view :: e.no <= top.no
    requires !Accepts(cfg, s.cache, s.passes[p].competition, top.no)
    ensures Reachable(cfg, rulebook, s')
    ensures s'.db == s.db && s'.failed == s.failed && s'.cache == s.cache
    ensures s'.pending == s.pending - s.passes[p].claimed
  {
    MaxNoIs(view, top);
    s' := Next(cfg, rulebook, s, Publish(p));
  }

  lemma HigherFolded(cfg: Config, rulebook: Rulebook, c: string, challenge: string) returns (s: State)
    requires Scorable(rulebook, c, challenge)
    ensures Reachable(cfg, rulebook, s)
    ensures s.db.txns == map[1 := Ready(1, c, challenge)]
    ensures
      var two := Won(2, c, challenge);
      && s.db.events == {two} && s.pending == {} && s.failed == {} && s.passes == map[]
      && c in s.cache && s.cache[c] == Cached(2, Fold({two}, rulebook, c).value, {two})
  {
    var two := Won(2, c, challenge);
    s := HigherRead(cfg, rulebook, c, challenge);
    BoardsDiffer(rulebook, c, challenge);
    s := Accepted(cfg, rulebook, s, 1, {two}, two);
  }

  lemma HigherRead(cfg: Config, rulebook: Rulebook, c: string, challenge: string) returns (s: State)
    ensures Reachable(cfg, rulebook, s)
    ensures s.db.txns == map[1 := Ready(1, c, challenge)]
    ensures
      var two := Won(2, c, challenge);
      && s.db.events == {two} == s.pending && s.failed == {} && s.cache == map[]
      && s.passes == map[1 := Pass(c, {two}, Viewed({two}))]
  {
    var two := Won(2, c, challenge);
    s := HigherCommitsFirst(cfg, rulebook, c, challenge);
    assert Of(s.db.events, c) == {two} == Of(s.pending, c);
    s := ClaimAndRead(cfg, rulebook, s, 1, c, {two});
  }

  /** Event 2 is folded, then event 1 commits and a second pass reads both. */
  lemma LateLower(cfg: Config, rulebook: Rulebook, c: string, challenge: string) returns (s: State)
    requires Scorable(rulebook, c, challenge)
    ensures Reachable(cfg, rulebook, s)
    ensures
      var one, two := Won(1, c, challenge), Won(2, c, challenge);
      && s.db.events == {one, two} && s.pending == {one} && s.failed == {}
      && c in s.cache && s.cache[c] == Cached(2, Fold({two}, rulebook, c).value, {two})
      && s.passes == map[2 := Pass(c, {one}, Viewed({one, two}))]
  {
    var one, two := Won(1, c, challenge), Won(2, c, challenge);
    s := HigherFolded(cfg, rulebook, c, challenge);
    s := LowerCommits(cfg, rulebook, s, c, challenge);
    assert Of(s.db.events, c) == {one, two} && Of(s.pending, c) == {one};
    s := ClaimAndRead(cfg, rulebook, s, 2, c, {one});
  }

  /** With a strict guard a fold that adds only a late, lower number is rejected, and its row deleted. */
  lemma StrictLoses(cfg: Config, rulebook: Rulebook, c: string, challenge: string) returns (s: State)
    requires cfg.strict && Scorable(rulebook, c, challenge)
    ensures Reachable(cfg, rulebook, s) && WrongBoard(rulebook, s, c) && !BoardsRight(rulebook, s) && !Complete(s)
  {
    var one, two := Won(1, c, challenge), Won(2, c, challenge);
    s := LateLower(cfg, rulebook, c, challenge);
    BoardsDiffer(rulebook, c, challenge);
    s := Rejected(cfg, rulebook, s, 2, {one, two}, two);
    LostOne(rulebook, s, c, challenge);
  }

  /** A drained competition with events caches their refold. */
  ghost predicate BoardsRight(rulebook: Rulebook, s: State) {
    forall c | Drained(s, c) && Of(s.db.events, c) != {} ::
      c in s.cache && Fold(Of(s.db.events, c), rulebook, c) == Ok(s.cache[c].board)
  }

  lemma WrongIsNotRight(rulebook: Rulebook, s: State, c: string)
    requires WrongBoard(rulebook, s, c) && Of(s.db.events, c) != {}
    ensures !BoardsRight(rulebook, s)
  {}

  /** Drained boards are always right exactly when refolds hold the lock and the guard is not strict: the guard
      alone is not enough. So is the delivery of every event. */
  lemma SafeConfigurations(cfg: Config, rulebook: Rulebook, c: string, challenge: string)
    requires Scorable(rulebook, c, challenge)
    ensures (forall s | Reachable(cfg, rulebook, s) :: BoardsRight(rulebook, s)) <==> cfg == SHIPPED
    ensures (forall s | Reachable(cfg, rulebook, s) :: Complete(s)) <==> cfg == SHIPPED
  {
    if cfg == SHIPPED {
      forall s | Reachable(cfg, rulebook, s) ensures BoardsRight(rulebook, s) && Complete(s) {
        var steps :| Run(cfg, rulebook, INIT, steps) == s;
        ShippedComplete(rulebook, steps);
        forall k | Drained(s, k) && Of(s.db.events, k) != {}
          ensures k in s.cache && Fold(Of(s.db.events, k), rulebook, k) == Ok(s.cache[k].board)
        {
          DrainedBoard(rulebook, steps, k);
        }
      }
    } else if cfg.strict {
      var s := StrictLoses(cfg, rulebook, c, challenge);
    } else {
      var s := UnlockedLoses(cfg, rulebook, c, challenge);
    }
  }

  // ---------------------------------------------------------------------------
  // The reader the outbox replaces: poll `no > cursor`, then move the cursor to the highest number seen.

  function Above(nos: set<nat>, cursor: nat): set<nat> { set n | n in nos && n > cursor }

  ghost function Highest(nos: set<nat>, floor: nat): (m: nat)
    ensures m >= floor && forall n | n in nos :: n <= m
    ensures m == floor || m in nos
  {
    if nos == {} then floor
    else
      var n :| n in nos;
      assert forall k | k in nos :: k == n || k in nos - {n};
      var m := Highest(nos - {n}, floor);
      if n > m then n else m
  }

  /** All numbers delivered over a run of polls; `batches[i]` commits between poll i - 1 and poll i. */
  ghost function Delivered(committed: set<nat>, cursor: nat, batches: seq<set<nat>>): set<nat>
    decreases |batches|
  {
    if batches == [] then {}
    else
      var now := committed + batches[0];
      Above(now, cursor) + Delivered(now, Highest(Above(now, cursor), cursor), batches[1..])
  }

  ghost function All(batches: seq<set<nat>>): set<nat>
    decreases |batches|
  {
    if batches == [] then {} else batches[0] + All(batches[1..])
  }

  /** A number commits once. */
  ghost predicate Once(batches: seq<set<nat>>)
    decreases |batches|
  {
    batches == [] || (batches[0] !! All(batches[1..]) && Once(batches[1..]))
  }

  /** Every number commits above all those that committed in earlier batches. */
  ghost predicate InCommitOrder(batches: seq<set<nat>>, floor: nat)
    decreases |batches|
  {
    batches == [] ||
    ((forall n | n in batches[0] :: n > floor) && InCommitOrder(batches[1..], Highest(batches[0], floor)))
  }

  /** A cursor reader delivers everything exactly when numbers commit in number order. */
  lemma {:induction false} CursorReader(committed: set<nat>, cursor: nat, batches: seq<set<nat>>)
    requires Once(batches) && forall n | n in committed :: n <= cursor
    ensures All(batches) <= Delivered(committed, cursor, batches) <==> InCommitOrder(batches, cursor)
    decreases |batches|
  {
    if batches != [] {
      var now := committed + batches[0];
      var seen := Above(now, cursor);
      assert seen == Above(batches[0], cursor);
      var next := Highest(seen, cursor);
      var later := Delivered(now, next, batches[1..]);
      forall n | n in now ensures n <= next { assert n <= cursor || n in seen; }
      DeliveredAbove(now, next, batches[1..]);
      CursorReader(now, next, batches[1..]);
      if forall n | n in batches[0] :: n > cursor {
        assert seen == batches[0];
        assert All(batches[1..]) <= seen + later <==> All(batches[1..]) <= later;
      } else {
        var n :| n in batches[0] && n <= cursor;
        assert n !in seen && n !in later;
      }
    }
  }

  lemma {:induction false} DeliveredAbove(committed: set<nat>, cursor: nat, batches: seq<set<nat>>)
    ensures forall n | n in Delivered(committed, cursor, batches) :: n > cursor
    decreases |batches|
  {
    if batches != [] {
      var now := committed + batches[0];
      DeliveredAbove(now, Highest(Above(now, cursor), cursor), batches[1..]);
    }
  }
}
