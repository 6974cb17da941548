/**
 The append-only competition ledger under concurrent submitters: every statement of a submission
 transaction is one step, so a run is any interleaving, with any number of crashes. The advisory lock of
 the submission path is not modelled: nothing here depends on it.
 */
module Ledger {
  import opened Basics

  /** (competition, team, challenge version). */
  datatype Scope = Scope(competition: string, team: string, challenge: string)

  /** `correct` is the verifier's answer for the candidate flag. */
  datatype Request = Request(id: string, scope: Scope, at: int, correct: bool)

  datatype Submission = Submission(id: string, scope: Scope, at: int, correct: bool)

  datatype Solve = Solve(scope: Scope, submission: string, at: int)

  datatype EventKind = SolveEvent(submission: string) | Provenance | Unsupported

  /** `no` is the identity column: allocated at the insert, burnt on abort, in no relation to commit order. */
  datatype Event = Event(no: nat, scope: Scope, at: int, kind: EventKind)

  datatype Stage = Started | Inserting | Checking | Solving | Appending | Ready | Closed

  /** An open transaction and the rows only it can see; `Other` is any other writer of score events. */
  datatype Txn =
    | Submitting(req: Request, stage: Stage, row: Option<Submission>, won: Option<Solve>, event: Option<Event>)
    | Other(event: Option<Event>)
  {
    function Row(): Option<Submission> { if Submitting? then row else None }
    function Won(): Option<Solve> { if Submitting? then won else None }
  }

  datatype Tables = Tables(
    submissions: set<Submission>, solves: set<Solve>, events: set<Event>,
    nextNo: nat, txns: map<nat, Txn>)

  const EMPTY := Tables({}, {}, {}, 1, map[])

  datatype Step =
    | Begin(t: nat, req: Request)
    | AppendOther(t: nat, scope: Scope, at: int, kind: EventKind)
    | Lookup(t: nat)
    | InsertSubmission(t: nat)
    | CheckSolve(t: nat)
    | InsertSolve(t: nat)
    | AppendEvent(t: nat)
    | Commit(t: nat)
    | Abort(t: nat)

  function RowOf(r: Request): Submission { Submission(r.id, r.scope, r.at, r.correct) }

  function SolveOf(r: Request): Solve { Solve(r.scope, r.id, r.at) }

  function EventOf(no: nat, v: Solve): Event { Event(no, v.scope, v.at, SolveEvent(v.submission)) }

  function Add<T>(s: set<T>, row: Option<T>): set<T> { if row.Some? then s + {row.value} else s }

  predicate SubmissionKnown(db: Tables, id: string) { exists x | x in db.submissions :: x.id == id }

  predicate Solved(solves: set<Solve>, scope: Scope) { exists v | v in solves :: v.scope == scope }

  predicate HoldsSubmission(x: Txn, id: string) { x.Row().Some? && x.Row().value.id == id }

  predicate HoldsSolve(x: Txn, scope: Scope) { x.Won().Some? && x.Won().value.scope == scope }

  /** Another open transaction holds an uncommitted row with this key: the insert waits for it. */
  predicate SubmissionHeld(db: Tables, t: nat, id: string) {
    exists u | u in db.txns && u != t :: HoldsSubmission(db.txns[u], id)
  }

  predicate SolveHeld(db: Tables, t: nat, scope: Scope) {
    exists u | u in db.txns && u != t :: HoldsSolve(db.txns[u], scope)
  }

  predicate At(db: Tables, t: nat, stage: Stage) {
    t in db.txns && db.txns[t].Submitting? && db.txns[t].stage == stage
  }

  function Put(db: Tables, t: nat, txn: Txn): Tables { db.(txns := db.txns[t := txn]) }

  function Publish(db: Tables, x: Txn): Tables {
    db.(submissions := Add(db.submissions, x.Row()),
        solves := Add(db.solves, x.Won()),
        events := Add(db.events, x.event))
  }

  /** One statement; a statement that is not enabled (or has to wait) leaves everything as it was. */
  function Apply(db: Tables, step: Step): Tables {
    match step
    case Begin(t, req) =>
      if t in db.txns then db else Put(db, t, Submitting(req, Started, None, None, None))
    case AppendOther(t, scope, at, kind) =>
      if t in db.txns || kind.SolveEvent? then db
      else Put(db, t, Other(Some(Event(db.nextNo, scope, at, kind)))).(nextNo := db.nextNo + 1)
    case Lookup(t) =>
      if !At(db, t, Started) then db
      else
        var stage := if SubmissionKnown(db, db.txns[t].req.id) then Closed else Inserting;
        Put(db, t, db.txns[t].(stage := stage))
    case InsertSubmission(t) =>
      if !At(db, t, Inserting) || SubmissionHeld(db, t, db.txns[t].req.id) then db
      else if SubmissionKnown(db, db.txns[t].req.id) then Put(db, t, db.txns[t].(stage := Closed))
      else
        var r := db.txns[t].req;
        Put(db, t, db.txns[t].(stage := if r.correct then Checking else Ready, row := Some(RowOf(r))))
    case CheckSolve(t) =>
      if !At(db, t, Checking) then db
      else
        var stage := if Solved(db.solves, db.txns[t].req.scope) then Ready else Solving;
        Put(db, t, db.txns[t].(stage := stage))
    case InsertSolve(t) =>
      if !At(db, t, Solving) || SolveHeld(db, t, db.txns[t].req.scope) then db
      else if Solved(db.solves, db.txns[t].req.scope) then Put(db, t, db.txns[t].(stage := Ready))
      else Put(db, t, db.txns[t].(stage := Appending, won := Some(SolveOf(db.txns[t].req))))
    case AppendEvent(t) =>
      if !At(db, t, Appending) then db
      else
        var e := EventOf(db.nextNo, SolveOf(db.txns[t].req));
        Put(db, t, db.txns[t].(stage := Ready, event := Some(e))).(nextNo := db.nextNo + 1)
    case Commit(t) =>
      if !CanCommit(db, t) then db else Publish(db, db.txns[t]).(txns := db.txns - {t})
    case Abort(t) => db.(txns := db.txns - {t})
  }

  predicate CanCommit(db: Tables, t: nat) {
    t in db.txns && (db.txns[t].Other? || db.txns[t].stage == Ready || db.txns[t].stage == Closed)
  }

  // ---------------------------------------------------------------------------
  // What every interleaving keeps.

  ghost predicate NoRows(x: Txn)
    requires x.Submitting?
  {
    x.row.None? && x.won.None? && x.event.None?
  }

  /** Waiting for its solve: a correct attempt, recorded. */
  ghost predicate RowOnly(x: Txn)
    requires x.Submitting?
  {
    x.row == Some(RowOf(x.req)) && x.won.None? && x.event.None?
  }

  ghost predicate FirstSolve(x: Txn, nextNo: nat)
    requires x.Submitting?
  {
    && x.row == Some(RowOf(x.req)) && x.req.correct && x.won == Some(SolveOf(x.req))
    && x.event.Some? && x.event.value == EventOf(x.event.value.no, SolveOf(x.req)) && x.event.value.no < nextNo
  }

  /** Each stage's uncommitted rows; a correct attempt is never ready while its challenge is unsolved. */
  ghost predicate TxnOk(x: Txn, nextNo: nat, solves: set<Solve>) {
    match x
    case Other(event) => event.Some? && !event.value.kind.SolveEvent? && event.value.no < nextNo
    case Submitting(r, stage, row, won, event) =>
      match stage
      case Started => NoRows(x)
      case Inserting => NoRows(x)
      case Closed => NoRows(x)
      case Checking => RowOnly(x) && r.correct
      case Solving => RowOnly(x) && r.correct
      case Appending => row == Some(RowOf(r)) && r.correct && won == Some(SolveOf(r)) && event.None?
      case Ready => (RowOnly(x) && (r.correct ==> Solved(solves, r.scope))) || FirstSolve(x, nextNo)
  }

  /** The uncommitted rows of two transactions have no key in common. */
  ghost predicate Apart(a: Txn, b: Txn) {
    && (a.Row().Some? && b.Row().Some? ==> a.Row().value.id != b.Row().value.id)
    && (a.Won().Some? && b.Won().Some? ==> a.Won().value.scope != b.Won().value.scope)
    && (a.event.Some? && b.event.Some? ==> a.event.value.no != b.event.value.no)
  }

  /** The uncommitted rows of a transaction have no key in common with a committed row. */
  ghost predicate Fresh(db: Tables, a: Txn) {
    && (a.Row().Some? ==> forall y | y in db.submissions :: a.Row().value.id != y.id)
    && (a.Won().Some? ==> forall y | y in db.solves :: a.Won().value.scope != y.scope)
    && (a.event.Some? ==> forall y | y in db.events :: a.event.value.no != y.no)
  }

  ghost predicate KeysUnique(db: Tables) {
    && (forall x, y | x in db.submissions && y in db.submissions && x.id == y.id :: x == y)
    && (forall x, y | x in db.solves && y in db.solves && x.scope == y.scope :: x == y)
    && (forall x, y | x in db.events && y in db.events && x.no == y.no :: x == y)
    && (forall e | e in db.events :: e.no < db.nextNo)
  }

  /** A solve cites a correct submission of its own tuple; a correct submission leaves its tuple solved. */
  ghost predicate SolvesCite(db: Tables) {
    && (forall v | v in db.solves :: Submission(v.submission, v.scope, v.at, true) in db.submissions)
    && (forall x | x in db.submissions && x.correct :: Solved(db.solves, x.scope))
  }

  ghost predicate Witnessed(events: set<Event>, v: Solve) { exists no: nat :: EventOf(no, v) in events }

  /** Solve events and solves match one to one. */
  ghost predicate EventsMatch(db: Tables) {
    && (forall e | e in db.events && e.kind.SolveEvent? :: Solve(e.scope, e.kind.submission, e.at) in db.solves)
    && (forall v | v in db.solves :: Witnessed(db.events, v))
    && OneEventEach(db.events)
  }

  ghost predicate OneEventEach(events: set<Event>) {
    forall x, y | x in events && y in events && x.kind.SolveEvent? && y.kind.SolveEvent? && x.scope == y.scope :: x == y
  }

  ghost predicate TxnsOk(db: Tables) {
    && (forall t | t in db.txns :: TxnOk(db.txns[t], db.nextNo, db.solves) && Fresh(db, db.txns[t]))
    && (forall t, u | t in db.txns && u in db.txns && t != u :: Apart(db.txns[t], db.txns[u]))
  }

  ghost predicate Inv(db: Tables) { TxnsOk(db) && KeysUnique(db) && SolvesCite(db) && EventsMatch(db) }

  /** Changing one transaction's own rows: what has to be checked. */
  lemma PutInv(db: Tables, t: nat, x: Txn, nextNo: nat)
    requires Inv(db) && db.nextNo <= nextNo
    requires TxnOk(x, nextNo, db.solves) && Fresh(db, x)
    requires forall u | u in db.txns && u != t :: Apart(x, db.txns[u])
    ensures Inv(Put(db, t, x).(nextNo := nextNo))
  {
    var db' := Put(db, t, x).(nextNo := nextNo);
    forall u | u in db'.txns ensures TxnOk(db'.txns[u], nextNo, db.solves) && Fresh(db', db'.txns[u]) {
      if u != t { assert TxnOk(db.txns[u], db.nextNo, db.solves) && Fresh(db, db.txns[u]); }
    }
    forall u, v | u in db'.txns && v in db'.txns && u != v ensures Apart(db'.txns[u], db'.txns[v]) {
      if u == t { assert Apart(x, db.txns[v]); } else if v == t { assert Apart(x, db.txns[u]); }
    }
  }

  /** A transaction that only moves to another stage keeps its rows, so it stays apart from the others. */
  lemma MoveInv(db: Tables, t: nat, stage: Stage)
    requires Inv(db) && t in db.txns && db.txns[t].Submitting?
    requires TxnOk(db.txns[t].(stage := stage), db.nextNo, db.solves)
    ensures Inv(Put(db, t, db.txns[t].(stage := stage)))
  {
    var x := db.txns[t].(stage := stage);
    assert Fresh(db, db.txns[t]);
    forall u | u in db.txns && u != t ensures Apart(x, db.txns[u]) { assert Apart(db.txns[t], db.txns[u]); }
    PutInv(db, t, x, db.nextNo);
    assert Put(db, t, x).(nextNo := db.nextNo) == Put(db, t, x);
  }

  lemma StepInv(db: Tables, step: Step)
    requires Inv(db)
    ensures Inv(Apply(db, step))
  {
    match step
    case Begin(t, req) => BeginInv(db, t, req);
    case AppendOther(t, scope, at, kind) => AppendOtherInv(db, t, scope, at, kind);
    case Lookup(t) => LookupInv(db, t);
    case InsertSubmission(t) => InsertSubmissionInv(db, t);
    case CheckSolve(t) => CheckSolveInv(db, t);
    case InsertSolve(t) => InsertSolveInv(db, t);
    case AppendEvent(t) => AppendEventInv(db, t);
    case Commit(t) => if CanCommit(db, t) { CommitInv(db, t); }
    case Abort(t) => AbortInv(db, t);
  }

  lemma BeginInv(db: Tables, t: nat, req: Request)
    requires Inv(db)
    ensures Inv(Apply(db, Begin(t, req)))
  {
    if t !in db.txns {
      var x := Submitting(req, Started, None, None, None);
      PutInv(db, t, x, db.nextNo);
      assert Put(db, t, x).(nextNo := db.nextNo) == Put(db, t, x);
    }
  }

  lemma AbortInv(db: Tables, t: nat)
    requires Inv(db)
    ensures Inv(Apply(db, Abort(t)))
  {
    var db' := Apply(db, Abort(t));
    forall u | u in db'.txns ensures TxnOk(db'.txns[u], db'.nextNo, db'.solves) && Fresh(db', db'.txns[u]) {
      assert TxnOk(db.txns[u], db.nextNo, db.solves) && Fresh(db, db.txns[u]);
    }
  }

  lemma AppendOtherInv(db: Tables, t: nat, scope: Scope, at: int, kind: EventKind)
    requires Inv(db)
    ensures Inv(Apply(db, AppendOther(t, scope, at, kind)))
  {
    if t !in db.txns && !kind.SolveEvent? {
      var x := Other(Some(Event(db.nextNo, scope, at, kind)));
      assert Fresh(db, x);
      PendingNosBelow(db);
      forall u | u in db.txns && u != t ensures Apart(x, db.txns[u]) {}
      PutInv(db, t, x, db.nextNo + 1);
    }
  }

  lemma LookupInv(db: Tables, t: nat)
    requires Inv(db)
    ensures Inv(Apply(db, Lookup(t)))
  {
    if At(db, t, Started) {
      assert TxnOk(db.txns[t], db.nextNo, db.solves);
      MoveInv(db, t, if SubmissionKnown(db, db.txns[t].req.id) then Closed else Inserting);
    }
  }

  lemma CheckSolveInv(db: Tables, t: nat)
    requires Inv(db)
    ensures Inv(Apply(db, CheckSolve(t)))
  {
    if At(db, t, Checking) {
      assert TxnOk(db.txns[t], db.nextNo, db.solves);
      MoveInv(db, t, if Solved(db.solves, db.txns[t].req.scope) then Ready else Solving);
    }
  }

  lemma AppendEventInv(db: Tables, t: nat)
    requires Inv(db)
    ensures Inv(Apply(db, AppendEvent(t)))
  {
    if At(db, t, Appending) {
      assert TxnOk(db.txns[t], db.nextNo, db.solves) && Fresh(db, db.txns[t]);
      var x := db.txns[t].(stage := Ready, event := Some(EventOf(db.nextNo, SolveOf(db.txns[t].req))));
      assert Fresh(db, x);
      PendingNosBelow(db);
      forall u | u in db.txns && u != t ensures Apart(x, db.txns[u]) { assert Apart(db.txns[t], db.txns[u]); }
      PutInv(db, t, x, db.nextNo + 1);
    }
  }

  lemma PendingNosBelow(db: Tables)
    requires Inv(db)
    ensures forall t | t in db.txns && db.txns[t].event.Some? :: db.txns[t].event.value.no < db.nextNo
  {
    forall t | t in db.txns && db.txns[t].event.Some? ensures db.txns[t].event.value.no < db.nextNo {
      assert TxnOk(db.txns[t], db.nextNo, db.solves);
    }
  }

  lemma InsertSubmissionInv(db: Tables, t: nat)
    requires Inv(db)
    ensures Inv(Apply(db, InsertSubmission(t)))
  {
    if At(db, t, Inserting) && !SubmissionHeld(db, t, db.txns[t].req.id) {
      var r := db.txns[t].req;
      assert TxnOk(db.txns[t], db.nextNo, db.solves);
      if SubmissionKnown(db, r.id) {
        MoveInv(db, t, Closed);
      } else {
        var x := db.txns[t].(stage := if r.correct then Checking else Ready, row := Some(RowOf(r)));
        forall u | u in db.txns && u != t ensures Apart(x, db.txns[u]) {
          assert !HoldsSubmission(db.txns[u], r.id);
        }
        PutInv(db, t, x, db.nextNo);
        assert Put(db, t, x).(nextNo := db.nextNo) == Put(db, t, x);
      }
    }
  }

  lemma InsertSolveInv(db: Tables, t: nat)
    requires Inv(db)
    ensures Inv(Apply(db, InsertSolve(t)))
  {
    if At(db, t, Solving) && !SolveHeld(db, t, db.txns[t].req.scope) {
      var r := db.txns[t].req;
      assert TxnOk(db.txns[t], db.nextNo, db.solves) && Fresh(db, db.txns[t]);
      if Solved(db.solves, r.scope) {
        MoveInv(db, t, Ready);
      } else {
        var x := db.txns[t].(stage := Appending, won := Some(SolveOf(r)));
        forall u | u in db.txns && u != t ensures Apart(x, db.txns[u]) {
          assert Apart(db.txns[t], db.txns[u]);
          assert !HoldsSolve(db.txns[u], r.scope);
        }
        PutInv(db, t, x, db.nextNo);
        assert Put(db, t, x).(nextNo := db.nextNo) == Put(db, t, x);
      }
    }
  }

  lemma CommitInv(db: Tables, t: nat)
    requires Inv(db) && CanCommit(db, t)
    ensures Inv(Apply(db, Commit(t)))
  {
    CommitTxns(db, t);
    CommitKeys(db, t);
    CommitCites(db, t);
    CommitMatches(db, t);
  }

  lemma StillSolved(s: set<Solve>, s': set<Solve>, scope: Scope)
    requires s <= s' && Solved(s, scope)
    ensures Solved(s', scope)
  {
    var v :| v in s && v.scope == scope;
    assert v in s';
  }

  lemma CommitTxns(db: Tables, t: nat)
    requires Inv(db) && CanCommit(db, t)
    ensures TxnsOk(Apply(db, Commit(t)))
  {
    var db' := Apply(db, Commit(t));
    forall u | u in db'.txns ensures TxnOk(db'.txns[u], db'.nextNo, db'.solves) && Fresh(db', db'.txns[u]) {
      var x := db.txns[u];
      assert TxnOk(x, db.nextNo, db.solves);
      OtherStaysFresh(db, x, db.txns[t]);
      if x.Submitting? && Solved(db.solves, x.req.scope) { StillSolved(db.solves, db'.solves, x.req.scope); }
    }
  }

  lemma OtherStaysFresh(db: Tables, x: Txn, y: Txn)
    requires Fresh(db, x) && Apart(x, y)
    ensures Fresh(Publish(db, y), x)
  {}

  lemma CommitKeys(db: Tables, t: nat)
    requires Inv(db) && CanCommit(db, t)
    ensures KeysUnique(Apply(db, Commit(t)))
  {
    var x := db.txns[t];
    assert TxnOk(x, db.nextNo, db.solves) && Fresh(db, x);
  }

  lemma CommitCites(db: Tables, t: nat)
    requires Inv(db) && CanCommit(db, t)
    ensures SolvesCite(Apply(db, Commit(t)))
  {
    var x, db' := db.txns[t], Apply(db, Commit(t));
    assert TxnOk(x, db.nextNo, db.solves);
    forall y | y in db'.submissions && y.correct ensures Solved(db'.solves, y.scope) {
      if Solved(db.solves, y.scope) {
        StillSolved(db.solves, db'.solves, y.scope);
      } else {
        assert FirstSolve(x, db.nextNo);
        assert SolveOf(x.req) in db'.solves;
      }
    }
  }

  lemma CommitMatches(db: Tables, t: nat)
    requires Inv(db) && CanCommit(db, t)
    ensures EventsMatch(Apply(db, Commit(t)))
  {
    var x, db' := db.txns[t], Apply(db, Commit(t));
    assert TxnOk(x, db.nextNo, db.solves) && Fresh(db, x);
    forall v | v in db'.solves ensures Witnessed(db'.events, v) {
      if v in db.solves {
        assert Witnessed(db.events, v);
        var no: nat :| EventOf(no, v) in db.events;
        assert EventOf(no, v) in db'.events;
      } else {
        assert FirstSolve(x, db.nextNo) && v == SolveOf(x.req);
        assert EventOf(x.event.value.no, v) in db'.events;
      }
    }
    OneEventAfter(db, x);
  }

  lemma OneEventAfter(db: Tables, x: Txn)
    requires EventsMatch(db) && TxnOk(x, db.nextNo, db.solves) && Fresh(db, x)
    ensures OneEventEach(Add(db.events, x.event))
  {
    if x.event.Some? && x.event.value.kind.SolveEvent? {
      forall e | e in db.events && e.kind.SolveEvent? ensures e.scope != x.event.value.scope {
        assert Solve(e.scope, e.kind.submission, e.at) in db.solves;
      }
    }
  }

  // ---------------------------------------------------------------------------
  // Runs.

  function Run(db: Tables, steps: seq<Step>): Tables
    decreases |steps|
  {
    if steps == [] then db else Run(Apply(db, steps[0]), steps[1..])
  }

  lemma {:induction false} RunInv(db: Tables, steps: seq<Step>)
    requires Inv(db)
    ensures Inv(Run(db, steps))
    decreases |steps|
  {
    if steps != [] {
      StepInv(db, steps[0]);
      RunInv(Apply(db, steps[0]), steps[1..]);
    }
  }

  /** For any interleaving: at most one solve per (competition, team, challenge), and exactly one once a
      correct attempt has committed; each solve cites a correct submission of the same tuple. */
  lemma AtMostOneSolve(steps: seq<Step>)
    ensures
      var db := Run(EMPTY, steps);
      && (forall v, w | v in db.solves && w in db.solves && v.scope == w.scope :: v == w)
      && (forall x | x in db.submissions && x.correct :: exists v | v in db.solves :: v.scope == x.scope)
      && (forall v | v in db.solves :: Submission(v.submission, v.scope, v.at, true) in db.submissions)
  {
    RunInv(EMPTY, steps);
    var db := Run(EMPTY, steps);
    forall x | x in db.submissions && x.correct ensures exists v | v in db.solves :: v.scope == x.scope {
      assert Solved(db.solves, x.scope);
    }
  }

  ghost function SolveEvents(db: Tables): set<Event> { set e | e in db.events && e.kind.SolveEvent? }

  ghost function SolveRows(db: Tables): set<Solve> {
    set e | e in db.events && e.kind.SolveEvent? :: Solve(e.scope, e.kind.submission, e.at)
  }

  /** The solves table and the solve events tell the same story, event for row. */
  lemma SolveEventsAreSolves(db: Tables)
    requires Inv(db)
    ensures SolveRows(db) == db.solves
    ensures |SolveEvents(db)| == |db.solves|
  {
    forall v | v in db.solves ensures v in SolveRows(db) {
      var no: nat :| EventOf(no, v) in db.events;
    }
    var es := SolveEvents(db);
    var key := (e: Event) => e.scope;
    ImageSize(es, key);
    var scope := (v: Solve) => v.scope;
    ImageSize(db.solves, scope);
    assert Image(es, key) == Image(db.solves, scope) by {
      forall s | s in Image(db.solves, scope) ensures s in Image(es, key) {
        var v :| v in db.solves && v.scope == s;
        var no: nat :| EventOf(no, v) in db.events;
        assert EventOf(no, v) in es;
      }
      forall s | s in Image(es, key) ensures s in Image(db.solves, scope) {
        var e :| e in es && e.scope == s;
        assert scope(Solve(e.scope, e.kind.submission, e.at)) == s;
      }
    }
  }

  lemma StepGrows(db: Tables, step: Step)
    ensures db.submissions <= Apply(db, step).submissions
    ensures db.solves <= Apply(db, step).solves
    ensures db.events <= Apply(db, step).events
  {}

  /** A committed attempt is recorded for good, and so are the solves: the ledger only grows. */
  lemma {:induction false} LedgerGrows(db: Tables, steps: seq<Step>)
    ensures db.submissions <= Run(db, steps).submissions
    ensures db.solves <= Run(db, steps).solves
    ensures db.events <= Run(db, steps).events
    decreases |steps|
  {
    if steps != [] { LedgerGrows(Apply(db, steps[0]), steps[1..]); }
  }

  function AttemptSteps(t: nat, req: Request): seq<Step> {
    [Begin(t, req), Lookup(t), InsertSubmission(t), CheckSolve(t), InsertSolve(t), AppendEvent(t)]
  }

  /** A first correct attempt that nothing stands in the way of gets its submission, its solve and the next event
      number, and is ready to commit. */
  lemma FirstCorrectAttempt(db: Tables, t: nat, req: Request)
    requires t !in db.txns && req.correct && !SubmissionKnown(db, req.id) && !Solved(db.solves, req.scope)
    requires forall u | u in db.txns :: !HoldsSubmission(db.txns[u], req.id) && !HoldsSolve(db.txns[u], req.scope)
    ensures
      var v := SolveOf(req);
      Run(db, AttemptSteps(t, req))
      == Put(db, t, Submitting(req, Ready, Some(RowOf(req)), Some(v), Some(EventOf(db.nextNo, v)))).(
           nextNo := db.nextNo + 1)
  {
    var steps, v := AttemptSteps(t, req), SolveOf(req);
    var begun, free := InProgress(db, t, req, Started, None, None), InProgress(db, t, req, Inserting, None, None);
    var recorded := InProgress(db, t, req, Checking, Some(RowOf(req)), None);
    var first := InProgress(db, t, req, Solving, Some(RowOf(req)), None);
    var solved := InProgress(db, t, req, Appending, Some(RowOf(req)), Some(v));
    AttemptRecords(db, t, req);
    AttemptSolves(db, t, req);
    RunSix(steps, db, begun, free, recorded, first, solved);
  }

  function InProgress(
    db: Tables, t: nat, req: Request, stage: Stage, row: Option<Submission>, won: Option<Solve>): Tables
  {
    Put(db, t, Submitting(req, stage, row, won, None))
  }

  lemma AttemptRecords(db: Tables, t: nat, req: Request)
    requires t !in db.txns && req.correct && !SubmissionKnown(db, req.id)
    requires forall u | u in db.txns :: !HoldsSubmission(db.txns[u], req.id)
    ensures
      var begun, free := InProgress(db, t, req, Started, None, None), InProgress(db, t, req, Inserting, None, None);
      && Apply(db, Begin(t, req)) == begun
      && Apply(begun, Lookup(t)) == free
      && Apply(free, InsertSubmission(t)) == InProgress(db, t, req, Checking, Some(RowOf(req)), None)
  {}

  lemma AttemptSolves(db: Tables, t: nat, req: Request)
    requires t !in db.txns && !Solved(db.solves, req.scope)
    requires forall u | u in db.txns :: !HoldsSolve(db.txns[u], req.scope)
    ensures
      var row, v := Some(RowOf(req)), SolveOf(req);
      var first, solved := InProgress(db, t, req, Solving, row, None), InProgress(db, t, req, Appending, row, Some(v));
      && Apply(InProgress(db, t, req, Checking, row, None), CheckSolve(t)) == first
      && Apply(first, InsertSolve(t)) == solved
      && Apply(solved, AppendEvent(t))
         == Put(db, t, Submitting(req, Ready, row, Some(v), Some(EventOf(db.nextNo, v)))).(nextNo := db.nextNo + 1)
  {}

  lemma RunSix(steps: seq<Step>, s0: Tables, s1: Tables, s2: Tables, s3: Tables, s4: Tables, s5: Tables)
    requires |steps| == 6
    requires Apply(s0, steps[0]) == s1 && Apply(s1, steps[1]) == s2 && Apply(s2, steps[2]) == s3
    requires Apply(s3, steps[3]) == s4 && Apply(s4, steps[4]) == s5
    ensures Run(s0, steps) == Apply(s5, steps[5])
  {
    RunFrom(s0, steps, 0);
    RunFrom(s1, steps, 1);
    RunFrom(s2, steps, 2);
    RunFrom(s3, steps, 3);
    RunFrom(s4, steps, 4);
    RunFrom(s5, steps, 5);
    assert steps[0..] == steps && steps[6..] == [];
  }

  lemma RunFrom(db: Tables, steps: seq<Step>, i: nat)
    requires i < |steps|
    ensures Run(db, steps[i..]) == Run(Apply(db, steps[i]), steps[i + 1..])
  {
    assert steps[i..][1..] == steps[i + 1..];
  }

  /** Every attempt that commits without being a replay is recorded, correct or not. */
  lemma AttemptRecorded(db: Tables, t: nat)
    requires Inv(db) && At(db, t, Ready)
    ensures RowOf(db.txns[t].req) in Apply(db, Commit(t)).submissions
    ensures db.txns[t].req.correct ==> Solved(Apply(db, Commit(t)).solves, db.txns[t].req.scope)
  {
    assert TxnOk(db.txns[t], db.nextNo, db.solves);
    CommitCites(db, t);
  }

  /** Re-sending a processed submission id ends in a replay that writes nothing, whether the earlier attempt
      committed before the lookup or between the lookup and the insert. */
  lemma ReplayWritesNothing(db: Tables, t: nat)
    requires Inv(db) && (At(db, t, Started) || At(db, t, Inserting)) && SubmissionKnown(db, db.txns[t].req.id)
    ensures
      var closed := Apply(Apply(db, Lookup(t)), InsertSubmission(t));
      && At(closed, t, Closed)
      && Apply(closed, Commit(t)) == db.(txns := db.txns - {t})
  {
    assert TxnOk(db.txns[t], db.nextNo, db.solves);
    var mid := Apply(db, Lookup(t));
    if At(db, t, Inserting) {
      assert mid == db;
      assert !SubmissionHeld(db, t, db.txns[t].req.id);
    }
    var closed := Apply(mid, InsertSubmission(t));
    assert closed.txns - {t} == db.txns - {t};
  }

  /** What a replay answers: whether the stored attempt was correct and whether it made the solve; or that the id
      was used for another tuple. */
  datatype Answer = Replayed(accepted: bool, first: bool) | IdentityConflict

  predicate Cited(db: Tables, id: string) { exists v | v in db.solves :: v.submission == id }

  function AnswerTo(db: Tables, stored: Submission, req: Request): Answer {
    if stored.scope != req.scope then IdentityConflict else Replayed(stored.correct, Cited(db, stored.id))
  }

  /** A solve is committed together with the submission it cites, never after it. */
  lemma WonCitesOwn(db: Tables, t: nat, x: Submission)
    requires Inv(db) && x in db.submissions && t in db.txns
    ensures db.txns[t].Won().Some? ==> db.txns[t].Won().value.submission != x.id
  {
    assert TxnOk(db.txns[t], db.nextNo, db.solves) && Fresh(db, db.txns[t]);
  }

  lemma CitedStep(db: Tables, step: Step, x: Submission)
    requires Inv(db) && x in db.submissions
    ensures Cited(Apply(db, step), x.id) <==> Cited(db, x.id)
  {
    if step.Commit? && CanCommit(db, step.t) {
      WonCitesOwn(db, step.t, x);
      assert Apply(db, step).solves == Add(db.solves, db.txns[step.t].Won());
    } else {
      assert Apply(db, step).solves == db.solves;
    }
  }

  /** From its commit on, an attempt is the only row with its id, and re-sending the id is answered the same way
      at any later time. */
  lemma {:induction false} ReplayIsStable(db: Tables, steps: seq<Step>, x: Submission, req: Request)
    requires Inv(db) && x in db.submissions
    ensures x in Run(db, steps).submissions && forall y | y in Run(db, steps).submissions && y.id == x.id :: y == x
    ensures AnswerTo(Run(db, steps), x, req) == AnswerTo(db, x, req)
    decreases |steps|
  {
    if steps != [] {
      StepInv(db, steps[0]);
      StepGrows(db, steps[0]);
      CitedStep(db, steps[0], x);
      ReplayIsStable(Apply(db, steps[0]), steps[1..], x, req);
    }
  }
}
