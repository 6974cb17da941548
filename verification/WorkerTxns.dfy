/**
 The enrollment transactions statement by statement, under any interleaving and any number of aborts: reads see
 what is committed, a row written by an open transaction makes other writers wait, and the unique constraints
 wait for open writers too. Verbs that touch one row of the worker alone stay single steps.
 */
module WorkerTxns {
  import opened Basics
  import opened Workers
  import W = WorkerLaws

  datatype Stage = Reading | Updating | Finding | Stamping | Rechecking | Inserting | Ready

  /** `written` is an uncommitted change of trust, `stamped` a credential revoked but not yet committed,
      `inserted` says whether the new credential is written. */
  datatype Txn = Txn(
    verb: W.Verb, stage: Stage, written: bool, found: Option<string>, stamped: Option<string>, inserted: bool)

  datatype State = State(tables: Tables, txns: map<nat, Txn>)

  const INIT := State(EMPTY, map[])

  datatype Step =
    | Alone(verb: W.Verb)
    | Begin(t: nat, verb: W.Verb)
    | Read(t: nat)
    | Update(t: nat)
    | Find(t: nat, found: Option<string>)
    | Stamp(t: nat)
    | Recheck(t: nat)
    | Insert(t: nat)
    | Commit(t: nat)
    | Abort(t: nat)

  predicate Compound(verb: W.Verb) { verb.Approve? || verb.Rotate? || verb.Revoke? }

  predicate Issues(x: Txn) { x.verb.Approve? || x.verb.Rotate? }

  predicate At(s: State, t: nat, stage: Stage) { t in s.txns && s.txns[t].stage == stage }

  function Put(s: State, t: nat, x: Txn): State { s.(txns := s.txns[t := x]) }

  function RollBack(s: State, t: nat): State { s.(txns := s.txns - {t}) }

  // ---------------------------------------------------------------------------
  // The statements.

  predicate SourceState(tables: Tables, verb: W.Verb) {
    verb.name in tables.workers &&
    match verb
    case Approve(name, _) => tables.workers[name].trust == Pending
    case Rotate(name, _) => tables.workers[name].trust == Trusted
    case _ => tables.workers[verb.name].trust != Revoked
  }

  function ReadStep(s: State, t: nat): State
    requires t in s.txns
  {
    var x := s.txns[t];
    if !SourceState(s.tables, x.verb) then RollBack(s, t)
    else Put(s, t, x.(stage := if x.verb.Rotate? then Finding else Updating))
  }

  predicate RowHeld(s: State, t: nat, name: string) {
    exists u | u in s.txns && u != t :: s.txns[u].written && s.txns[u].verb.name == name
  }

  predicate IsRevoked(tables: Tables, name: string) { name in tables.workers && tables.workers[name].trust == Revoked }

  /** The terminal-state trigger fires on the row as it is when the update gets its lock. */
  function UpdateStep(s: State, t: nat): State
    requires t in s.txns
  {
    var x := s.txns[t];
    if RowHeld(s, t, x.verb.name) then s
    else if x.verb.Approve? && IsRevoked(s.tables, x.verb.name) then RollBack(s, t)
    else Put(s, t, x.(written := true, stage := if x.verb.Approve? then Rechecking else Finding))
  }

  predicate NoneLive(tables: Tables, name: string) { forall k | k in tables.credentials :: !LiveFor(tables, k, name) }

  function FindStep(s: State, t: nat, found: Option<string>): State
    requires t in s.txns
  {
    var x := s.txns[t];
    match found
    case Some(id) =>
      if LiveFor(s.tables, id, x.verb.name) then Put(s, t, x.(found := found, stage := Stamping)) else s
    case None =>
      if !NoneLive(s.tables, x.verb.name) then s
      else Put(s, t, x.(stage := if x.verb.Rotate? then Rechecking else Ready))
  }

  predicate StampHeld(s: State, t: nat, id: string) {
    exists u | u in s.txns && u != t :: s.txns[u].stamped == Some(id)
  }

  function StampStep(s: State, t: nat): State
    requires t in s.txns && s.txns[t].found.Some?
  {
    var x := s.txns[t];
    if StampHeld(s, t, x.found.value) then s
    else if !LiveFor(s.tables, x.found.value, x.verb.name) then RollBack(s, t)
    else Put(s, t, x.(stamped := x.found, stage := if x.verb.Rotate? then Rechecking else Ready))
  }

  predicate ValidGrant(g: Grant) { g.scopes <= SCOPES && g.ttl > 0 && g.scopes != {} }

  /** The second look at the trust state, just before the insert. With `again` it reads the row anew, otherwise it gets
      what the first look of the transaction saw. */
  function RecheckStep(again: bool, s: State, t: nat): State
    requires t in s.txns && Issues(s.txns[t])
  {
    var x := s.txns[t];
    if !ValidGrant(x.verb.g) || (x.verb.Rotate? && again && !IsTrusted(s.tables, x.verb.name)) then RollBack(s, t)
    else Put(s, t, x.(stage := Inserting))
  }

  /** An open transaction holds a row that the unique constraints have to wait for. */
  predicate Blocked(codec: Codec, s: State, t: nat, name: string, g: Grant) {
    exists u | u in s.txns && u != t :: Blocks(codec, s.tables, s.txns[u], name, g)
  }

  predicate Blocks(codec: Codec, tables: Tables, y: Txn, name: string, g: Grant) {
    || (y.inserted && Issues(y) &&
        (y.verb.name == name || y.verb.g.id == g.id || codec.hash(y.verb.g.secret) == codec.hash(g.secret)))
    || (y.stamped.Some? && LiveFor(tables, y.stamped.value, name))
  }

  predicate Taken(codec: Codec, tables: Tables, x: Txn)
    requires Issues(x)
  {
    exists k | k in tables.credentials ::
      || k == x.verb.g.id || tables.credentials[k].tokenHash == codec.hash(x.verb.g.secret)
      || (LiveFor(tables, k, x.verb.name) && x.stamped != Some(k))
  }

  function InsertStep(codec: Codec, s: State, t: nat): State
    requires t in s.txns && Issues(s.txns[t])
  {
    var x := s.txns[t];
    if Blocked(codec, s, t, x.verb.name, x.verb.g) then s
    else if Taken(codec, s.tables, x) then RollBack(s, t)
    else Put(s, t, x.(inserted := true, stage := Ready))
  }

  function WriteTrust(s: Tables, verb: W.Verb): Tables
    requires verb.name in s.workers
  {
    var w := s.workers[verb.name];
    match verb
    case Approve(name, _) => s.(workers := s.workers[name := w.(trust := Trusted)])
    case Revoke(name, now) => s.(workers := s.workers[name := w.(trust := Revoked, revokedAt := Some(now))])
    case _ => s
  }

  function WriteStamp(s: Tables, id: string, now: int): Tables
    requires id in s.credentials
  {
    s.(credentials := s.credentials[id := s.credentials[id].(revokedAt := Some(now))])
  }

  function WriteGrant(codec: Codec, s: Tables, name: string, g: Grant): Tables {
    var c := Credential(name, codec.hash(g.secret), g.scopes, g.now, g.now + g.ttl, None);
    s.(credentials := s.credentials[g.id := c], issued := s.issued + [Issue(name, g.id, g.secret)])
  }

  function NowOf(verb: W.Verb): int {
    match verb
    case Approve(_, g) => g.now
    case Rotate(_, g) => g.now
    case Revoke(_, now) => now
    case _ => 0
  }

  function Committed(codec: Codec, s: Tables, x: Txn): Tables {
    var a := if x.written && x.verb.name in s.workers then WriteTrust(s, x.verb) else s;
    var b :=
      if x.stamped.Some? && x.stamped.value in a.credentials then WriteStamp(a, x.stamped.value, NowOf(x.verb)) else a;
    if x.inserted && Issues(x) then WriteGrant(codec, b, x.verb.name, x.verb.g) else b
  }

  function Apply(codec: Codec, again: bool, s: State, step: Step): State {
    match step
    case Alone(verb) => if Compound(verb) then s else s.(tables := W.After(codec, s.tables, verb))
    case Begin(t, verb) =>
      if t in s.txns || !Compound(verb) then s else Put(s, t, Txn(verb, Reading, false, None, None, false))
    case Read(t) => if At(s, t, Reading) then ReadStep(s, t) else s
    case Update(t) => if At(s, t, Updating) then UpdateStep(s, t) else s
    case Find(t, found) => if At(s, t, Finding) then FindStep(s, t, found) else s
    case Stamp(t) => if At(s, t, Stamping) && s.txns[t].found.Some? then StampStep(s, t) else s
    case Recheck(t) => if At(s, t, Rechecking) && Issues(s.txns[t]) then RecheckStep(again, s, t) else s
    case Insert(t) => if At(s, t, Inserting) && Issues(s.txns[t]) then InsertStep(codec, s, t) else s
    case Commit(t) =>
      if At(s, t, Ready) then RollBack(s, t).(tables := Committed(codec, s.tables, s.txns[t])) else s
    case Abort(t) => RollBack(s, t)
  }

  function Run(codec: Codec, again: bool, s: State, steps: seq<Step>): State
    decreases |steps|
  {
    if steps == [] then s else Run(codec, again, Apply(codec, again, s, steps[0]), steps[1..])
  }

  // ---------------------------------------------------------------------------
  // What locks and constraints keep, whatever the second look sees.

  /** Nobody but this transaction can have revoked or replaced the worker's live credential. */
  predicate HoldsSlot(codec: Codec, tables: Tables, x: Txn)
    requires Issues(x)
  {
    && x.verb.g.id !in tables.credentials
    && (forall k | k in tables.credentials :: tables.credentials[k].tokenHash != codec.hash(x.verb.g.secret))
    && (forall k | k in tables.credentials :: LiveFor(tables, k, x.verb.name) ==> x.stamped == Some(k))
  }

  predicate Flow(x: Txn) {
    && Compound(x.verb)
    && (x.verb.Approve? ==> x.stage != Finding && x.stage != Stamping && x.stamped.None?)
    && (x.verb.Approve? ==> (x.written <==> x.stage != Reading && x.stage != Updating))
    && (x.verb.Rotate? ==> x.stage != Updating && !x.written)
    && (x.verb.Revoke? ==> x.stage != Rechecking && x.stage != Inserting && !x.inserted)
    && (x.verb.Revoke? ==> (x.written <==> x.stage != Reading && x.stage != Updating))
    && (x.stage == Stamping ==> x.found.Some?)
    && (x.stamped.Some? ==> x.stage == Rechecking || x.stage == Inserting || x.stage == Ready)
    && (Issues(x) ==> (x.inserted <==> x.stage == Ready))
    && (Issues(x) && (x.stage == Inserting || x.stage == Ready) ==> ValidGrant(x.verb.g))
  }

  ghost predicate TxnOk(codec: Codec, tables: Tables, x: Txn) {
    && Flow(x)
    && (x.stage != Reading ==> x.verb.name in tables.workers)
    && (x.stamped.Some? ==> LiveFor(tables, x.stamped.value, x.verb.name))
    && (x.inserted ==> HoldsSlot(codec, tables, x))
    && (x.verb.Approve? && x.written ==> !IsRevoked(tables, x.verb.name))
  }

  ghost predicate Rivals(codec: Codec, x: Txn, y: Txn) {
    && !(x.written && y.written && x.verb.name == y.verb.name)
    && (x.stamped.Some? ==> x.stamped != y.stamped)
    && (x.inserted && y.inserted && Issues(x) && Issues(y) ==>
          && x.verb.name != y.verb.name && x.verb.g.id != y.verb.g.id
          && codec.hash(x.verb.g.secret) != codec.hash(y.verb.g.secret))
  }

  ghost predicate Locked(codec: Codec, s: State) {
    && OneLiveEach(s.tables)
    && (forall t | t in s.txns :: TxnOk(codec, s.tables, s.txns[t]))
    && (forall t, u | t in s.txns && u in s.txns && t != u :: Rivals(codec, s.txns[t], s.txns[u]))
  }

  lemma PutLocked(codec: Codec, s: State, t: nat, x: Txn)
    requires Locked(codec, s) && TxnOk(codec, s.tables, x)
    requires forall u | u in s.txns && u != t :: Rivals(codec, x, s.txns[u]) && Rivals(codec, s.txns[u], x)
    ensures Locked(codec, Put(s, t, x))
  {
    var s' := Put(s, t, x);
    forall u, v | u in s'.txns && v in s'.txns && u != v ensures Rivals(codec, s'.txns[u], s'.txns[v]) {
      if u != t && v != t { assert Rivals(codec, s.txns[u], s.txns[v]); }
    }
  }

  /** A transaction that takes nothing new stays apart from the others. */
  lemma MoveLocked(codec: Codec, s: State, t: nat, x: Txn)
    requires Locked(codec, s) && t in s.txns && TxnOk(codec, s.tables, x)
    requires x.verb == s.txns[t].verb && x.written == s.txns[t].written
    requires x.stamped == s.txns[t].stamped && x.inserted == s.txns[t].inserted
    ensures Locked(codec, Put(s, t, x))
  {
    forall u | u in s.txns && u != t ensures Rivals(codec, x, s.txns[u]) && Rivals(codec, s.txns[u], x) {
      assert Rivals(codec, s.txns[t], s.txns[u]) && Rivals(codec, s.txns[u], s.txns[t]);
    }
    PutLocked(codec, s, t, x);
  }

  lemma UpdateLocked(codec: Codec, s: State, t: nat)
    requires Locked(codec, s) && At(s, t, Updating)
    ensures Locked(codec, UpdateStep(s, t))
  {
    var x := s.txns[t];
    assert TxnOk(codec, s.tables, x);
    if !RowHeld(s, t, x.verb.name) && !(x.verb.Approve? && IsRevoked(s.tables, x.verb.name)) {
      var x' := x.(written := true, stage := if x.verb.Approve? then Rechecking else Finding);
      forall u | u in s.txns && u != t ensures Rivals(codec, x', s.txns[u]) && Rivals(codec, s.txns[u], x') {
        assert Rivals(codec, x, s.txns[u]) && Rivals(codec, s.txns[u], x);
      }
      PutLocked(codec, s, t, x');
    }
  }

  lemma StampLocked(codec: Codec, s: State, t: nat)
    requires Locked(codec, s) && At(s, t, Stamping) && s.txns[t].found.Some?
    ensures Locked(codec, StampStep(s, t))
  {
    var x := s.txns[t];
    assert TxnOk(codec, s.tables, x);
    if !StampHeld(s, t, x.found.value) && LiveFor(s.tables, x.found.value, x.verb.name) {
      var x' := x.(stamped := x.found, stage := if x.verb.Rotate? then Rechecking else Ready);
      forall u | u in s.txns && u != t ensures Rivals(codec, x', s.txns[u]) && Rivals(codec, s.txns[u], x') {
        assert Rivals(codec, x, s.txns[u]) && Rivals(codec, s.txns[u], x);
      }
      PutLocked(codec, s, t, x');
    }
  }

  lemma InsertLocked(codec: Codec, s: State, t: nat)
    requires Locked(codec, s) && At(s, t, Inserting) && Issues(s.txns[t])
    ensures Locked(codec, InsertStep(codec, s, t))
  {
    var x := s.txns[t];
    assert TxnOk(codec, s.tables, x);
    if !Blocked(codec, s, t, x.verb.name, x.verb.g) && !Taken(codec, s.tables, x) {
      var x' := x.(inserted := true, stage := Ready);
      assert HoldsSlot(codec, s.tables, x');
      forall u | u in s.txns && u != t ensures Rivals(codec, x', s.txns[u]) && Rivals(codec, s.txns[u], x') {
        assert Rivals(codec, x, s.txns[u]) && Rivals(codec, s.txns[u], x);
        assert !Blocks(codec, s.tables, s.txns[u], x.verb.name, x.verb.g);
      }
      PutLocked(codec, s, t, x');
    }
  }

  lemma CommitAddsOne(codec: Codec, s: Tables, x: Txn, name: string)
    requires TxnOk(codec, s, x)
    ensures forall k :: LiveFor(Committed(codec, s, x), k, name) ==>
      LiveFor(s, k, name) || (x.inserted && Issues(x) && k == x.verb.g.id && x.verb.name == name)
  {}

  /** A commit takes away nothing that another open transaction holds. */
  lemma CommitSpares(codec: Codec, s: State, x: Txn, y: Txn)
    requires TxnOk(codec, s.tables, x) && TxnOk(codec, s.tables, y) && x.stage == Ready
    requires Rivals(codec, x, y) && Rivals(codec, y, x)
    ensures TxnOk(codec, Committed(codec, s.tables, x), y)
  {
    CommitAddsOne(codec, s.tables, x, y.verb.name);
    if y.inserted { assert HoldsSlot(codec, s.tables, y); }
  }

  lemma CommitOneLive(codec: Codec, s: Tables, x: Txn)
    requires TxnOk(codec, s, x) && x.stage == Ready && OneLiveEach(s)
    ensures OneLiveEach(Committed(codec, s, x))
  {
    var after := Committed(codec, s, x);
    forall a, b | a in after.credentials && b in after.credentials && Live(after.credentials[a]) &&
        Live(after.credentials[b])
                  && after.credentials[a].worker == after.credentials[b].worker
      ensures a == b
    {
      if x.inserted {
        if a != x.verb.g.id && b == x.verb.g.id { assert LiveFor(s, a, x.verb.name); }
        if b != x.verb.g.id && a == x.verb.g.id { assert LiveFor(s, b, x.verb.name); }
      }
    }
  }

  lemma CommitLocked(codec: Codec, again: bool, s: State, t: nat)
    requires Locked(codec, s) && At(s, t, Ready)
    ensures Locked(codec, Apply(codec, again, s, Commit(t)))
  {
    var x, s' := s.txns[t], Apply(codec, again, s, Commit(t));
    assert TxnOk(codec, s.tables, x);
    CommitOneLive(codec, s.tables, x);
    forall u | u in s'.txns ensures TxnOk(codec, s'.tables, s'.txns[u]) {
      assert TxnOk(codec, s.tables, s.txns[u]) && Rivals(codec, x, s.txns[u]) && Rivals(codec, s.txns[u], x);
      CommitSpares(codec, s, x, s.txns[u]);
    }
    forall u, v | u in s'.txns && v in s'.txns && u != v ensures Rivals(codec, s'.txns[u], s'.txns[v]) {
      assert Rivals(codec, s.txns[u], s.txns[v]);
    }
  }

  lemma AloneLocked(codec: Codec, again: bool, s: State, verb: W.Verb)
    requires Locked(codec, s)
    ensures Locked(codec, Apply(codec, again, s, Alone(verb)))
  {
    var s' := Apply(codec, again, s, Alone(verb));
    if !Compound(verb) {
      assert s'.tables.credentials == s.tables.credentials;
      assert forall name | name in s.tables.workers ::
          name in s'.tables.workers && s'.tables.workers[name].trust == s.tables.workers[name].trust;
      forall t | t in s'.txns ensures TxnOk(codec, s'.tables, s'.txns[t]) {
        assert TxnOk(codec, s.tables, s.txns[t]);
      }
    }
  }

  lemma ReadLocked(codec: Codec, s: State, t: nat)
    requires Locked(codec, s) && At(s, t, Reading)
    ensures Locked(codec, ReadStep(s, t))
  {
    var x := s.txns[t];
    assert TxnOk(codec, s.tables, x);
    if SourceState(s.tables, x.verb) {
      MoveLocked(codec, s, t, x.(stage := if x.verb.Rotate? then Finding else Updating));
    } else {
      RollBackLocked(codec, s, t);
    }
  }

  lemma RollBackLocked(codec: Codec, s: State, t: nat)
    requires Locked(codec, s)
    ensures Locked(codec, RollBack(s, t))
  {}

  lemma RecheckLocked(codec: Codec, again: bool, s: State, t: nat)
    requires Locked(codec, s) && At(s, t, Rechecking) && Issues(s.txns[t])
    ensures Locked(codec, RecheckStep(again, s, t))
  {
    var x := s.txns[t];
    assert TxnOk(codec, s.tables, x);
    RollBackLocked(codec, s, t);
    if ValidGrant(x.verb.g) { MoveLocked(codec, s, t, x.(stage := Inserting)); }
  }

  lemma BeginLocked(codec: Codec, s: State, t: nat, verb: W.Verb)
    requires Locked(codec, s) && t !in s.txns && Compound(verb)
    ensures Locked(codec, Put(s, t, Txn(verb, Reading, false, None, None, false)))
  {
    PutLocked(codec, s, t, Txn(verb, Reading, false, None, None, false));
  }

  lemma StepLocked(codec: Codec, again: bool, s: State, step: Step)
    requires Locked(codec, s)
    ensures Locked(codec, Apply(codec, again, s, step))
  {
    match step
    case Alone(verb) => AloneLocked(codec, again, s, verb);
    case Begin(t, verb) => if t !in s.txns && Compound(verb) { BeginLocked(codec, s, t, verb); }
    case Read(t) => if At(s, t, Reading) { ReadLocked(codec, s, t); }
    case Update(t) => if At(s, t, Updating) { UpdateLocked(codec, s, t); }
    case Find(t, found) => FindLocked(codec, s, t, found);
    case Stamp(t) => if At(s, t, Stamping) && s.txns[t].found.Some? { StampLocked(codec, s, t); }
    case Recheck(t) => if At(s, t, Rechecking) && Issues(s.txns[t]) { RecheckLocked(codec, again, s, t); }
    case Insert(t) => if At(s, t, Inserting) && Issues(s.txns[t]) { InsertLocked(codec, s, t); }
    case Commit(t) => if At(s, t, Ready) { CommitLocked(codec, again, s, t); }
    case Abort(t) => RollBackLocked(codec, s, t);
  }

  lemma FindLocked(codec: Codec, s: State, t: nat, found: Option<string>)
    requires Locked(codec, s)
    ensures Locked(codec, Apply(codec, true, s, Find(t, found)))
  {
    if At(s, t, Finding) {
      var x := s.txns[t];
      assert TxnOk(codec, s.tables, x);
      var s' := FindStep(s, t, found);
      if s' != s { MoveLocked(codec, s, t, s'.txns[t]); }
    }
  }

  lemma {:induction false} RunLocked(codec: Codec, again: bool, s: State, steps: seq<Step>)
    requires Locked(codec, s)
    ensures Locked(codec, Run(codec, again, s, steps))
    decreases |steps|
  {
    if steps != [] {
      StepLocked(codec, again, s, steps[0]);
      RunLocked(codec, again, Apply(codec, again, s, steps[0]), steps[1..]);
    }
  }

  /** At most one live credential per worker, in every interleaving, even with a stale second look. */
  lemma NeverTwoLive(codec: Codec, again: bool, steps: seq<Step>)
    ensures OneLiveEach(Run(codec, again, INIT, steps).tables)
  {
    RunLocked(codec, again, INIT, steps);
  }

  lemma RevokedStep(codec: Codec, again: bool, s: State, step: Step, name: string)
    requires Locked(codec, s) && IsRevoked(s.tables, name)
    ensures IsRevoked(Apply(codec, again, s, step).tables, name)
  {
    if step.Commit? && At(s, step.t, Ready) { assert TxnOk(codec, s.tables, s.txns[step.t]); }
  }

  /** From the commit of a revocation on, in every interleaving, no token authenticates as that worker. */
  lemma {:induction false} RevokedForGood(codec: Codec, again: bool, s: State, steps: seq<Step>, name: string)
    requires Locked(codec, s) && IsRevoked(s.tables, name)
    ensures IsRevoked(Run(codec, again, s, steps).tables, name)
    ensures forall token, now ::
      var auth := AuthenticateSpec(codec, Run(codec, again, s, steps).tables, token, now);
      auth.Some? ==> auth.value.worker != name
    decreases |steps|
  {
    if steps != [] {
      RevokedStep(codec, again, s, steps[0], name);
      StepLocked(codec, again, s, steps[0]);
      RevokedForGood(codec, again, Apply(codec, again, s, steps[0]), steps[1..], name);
    }
  }
}
