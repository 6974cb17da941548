/**
 The interleaved enrollment transactions amount to the one-at-a-time verbs, exactly when the second look at the
 trust state reads the row anew.
 */
module WorkerTxnLaws {
  import opened Basics
  import opened Workers
  import opened WorkerTxns
  import W = WorkerLaws

  /** What a transaction may rely on once the second look is a fresh read. */
  ghost predicate InOrder(tables: Tables, x: Txn) {
    && (x.verb.Rotate? && x.stage != Reading ==>
          x.verb.name in tables.workers && tables.workers[x.verb.name].trust != Pending)
    && (x.verb.Rotate? && x.stage == Rechecking && x.stamped.None? ==> IsRevoked(tables, x.verb.name))
    && (x.verb.Rotate? && (x.stage == Inserting || x.stage == Ready) ==> x.stamped.Some?)
    && (x.verb.Revoke? && x.stage == Ready && x.stamped.None? ==> NoneLive(tables, x.verb.name))
  }

  ghost predicate Inv(codec: Codec, s: State) {
    && W.Inv(codec, s.tables) && Locked(codec, s)
    && forall t | t in s.txns :: InOrder(s.tables, s.txns[t])
  }

  // ---------------------------------------------------------------------------
  // A commit does what the verb does.

  /** The same but for revocation times: of two concurrent revocations both go through, and the later one leaves
      its time. */
  ghost predicate Alike(a: Tables, b: Tables) {
    && a.credentials == b.credentials && a.issued == b.issued && a.workers.Keys == b.workers.Keys
    && forall name | name in a.workers ::
         a.workers[name].trust == b.workers[name].trust &&
             a.workers[name].quarantinedAt == b.workers[name].quarantinedAt
  }

  lemma TrustedHasLive(codec: Codec, s: Tables, name: string)
    requires W.Inv(codec, s)
    ensures IsTrusted(s, name) ==> !NoneLive(s, name)
  {
    if IsTrusted(s, name) {
      var id :| LiveFor(s, id, name);
      assert id in s.credentials;
    }
  }

  lemma SlotIsFree(codec: Codec, s: Tables, s': Tables, name: string, g: Grant)
    requires IsTrusted(s', name) && ValidGrant(g) && s'.issued == s.issued
    requires forall k | k in s'.credentials ::
      k in s.credentials && s'.credentials[k].tokenHash == s.credentials[k].tokenHash && !LiveFor(s', k, name)
    requires g.id !in s.credentials
    requires forall k | k in s.credentials :: s.credentials[k].tokenHash != codec.hash(g.secret)
    ensures IssueSpec(codec, s', name, g) == Ok(WriteGrant(codec, s', name, g))
  {
    assert !Collides(s', g.id, codec.hash(g.secret), name);
  }

  /** Stamping the one live credential is revoking what is live. */
  lemma StampIsRevokeLive(s: Tables, id: string, name: string, now: int)
    requires OneLiveEach(s) && LiveFor(s, id, name)
    ensures WriteStamp(s, id, now) == RevokeLive(s, name, now)
  {
    assert WriteStamp(s, id, now).credentials == RevokeLive(s, name, now).credentials;
  }

  lemma NothingToRevoke(s: Tables, name: string, now: int)
    requires NoneLive(s, name)
    ensures RevokeLive(s, name, now) == s
  {
    assert RevokeLive(s, name, now).credentials == s.credentials;
  }

  lemma ApproveCommit(codec: Codec, s: Tables, x: Txn)
    requires W.Inv(codec, s) && TxnOk(codec, s, x) && x.stage == Ready && x.verb.Approve?
    ensures ApproveSpec(codec, s, x.verb.name, x.verb.g) == Ok(Committed(codec, s, x))
  {
    var name, g := x.verb.name, x.verb.g;
    assert HoldsSlot(codec, s, x);
    TrustedHasLive(codec, s, name);
    assert NoneLive(s, name);
    var mid := WriteTrust(s, x.verb);
    forall k | k in mid.credentials ensures !LiveFor(mid, k, name) { assert !LiveFor(s, k, name); }
    SlotIsFree(codec, s, mid, name, g);
  }

  lemma RotateCommit(codec: Codec, s: Tables, x: Txn)
    requires W.Inv(codec, s) && OneLiveEach(s) && TxnOk(codec, s, x) && InOrder(s, x) && x.stage == Ready &&
        x.verb.Rotate?
    ensures RotateSpec(codec, s, x.verb.name, x.verb.g) == Ok(Committed(codec, s, x))
  {
    var name, g, id := x.verb.name, x.verb.g, x.stamped.value;
    assert HoldsSlot(codec, s, x) && W.LiveOk(codec, s, id);
    StampIsRevokeLive(s, id, name, g.now);
    SlotIsFree(codec, s, RevokeLive(s, name, g.now), name, g);
  }

  /** A revocation that finds the worker revoked already changes its time and nothing else. */
  lemma RevokeCommit(codec: Codec, s: Tables, x: Txn)
    requires W.Inv(codec, s) && OneLiveEach(s) && TxnOk(codec, s, x) && InOrder(s, x) && x.stage == Ready &&
        x.verb.Revoke?
    ensures
      if IsRevoked(s, x.verb.name) then
        Committed(codec, s, x) == WriteTrust(s, x.verb) && RevokeSpec(s, x.verb.name, x.verb.now).Err?
      else
        RevokeSpec(s, x.verb.name, x.verb.now) == Ok(Committed(codec, s, x))
  {
    var name, mid := x.verb.name, WriteTrust(s, x.verb);
    if x.stamped.Some? {
      assert W.LiveOk(codec, s, x.stamped.value);
      assert LiveFor(mid, x.stamped.value, name) && OneLiveEach(mid);
      StampIsRevokeLive(mid, x.stamped.value, name, x.verb.now);
    } else {
      forall k | k in mid.credentials ensures !LiveFor(mid, k, name) { assert !LiveFor(s, k, name); }
      NothingToRevoke(mid, name, x.verb.now);
    }
  }

  lemma RestampInv(codec: Codec, s: Tables, verb: W.Verb)
    requires W.Inv(codec, s) && verb.Revoke? && IsRevoked(s, verb.name)
    ensures W.Inv(codec, WriteTrust(s, verb)) && Alike(WriteTrust(s, verb), s)
  {
    var s' := WriteTrust(s, verb);
    forall id | id in s'.credentials && Live(s'.credentials[id]) ensures W.LiveOk(codec, s', id) {
      assert W.LiveOk(codec, s, id);
    }
    forall name | IsTrusted(s', name) ensures exists id :: LiveFor(s', id, name) {
      assert IsTrusted(s, name);
      var id :| LiveFor(s, id, name);
      assert LiveFor(s', id, name);
    }
  }

  lemma CommitIsVerb(codec: Codec, s: Tables, x: Txn)
    requires W.Inv(codec, s) && OneLiveEach(s) && TxnOk(codec, s, x) && InOrder(s, x) && x.stage == Ready
    ensures W.Inv(codec, Committed(codec, s, x))
    ensures Alike(Committed(codec, s, x), W.After(codec, s, x.verb))
  {
    match x.verb {
      case Approve(_, _) => ApproveCommit(codec, s, x);
      case Rotate(_, _) => RotateCommit(codec, s, x);
      case Revoke(name, now) =>
        RevokeCommit(codec, s, x);
        if IsRevoked(s, name) { RestampInv(codec, s, x.verb); }
      case _ =>
    }
    W.StepInv(codec, s, x.verb);
  }

  // ---------------------------------------------------------------------------
  // What every interleaving keeps.

  /** A commit leaves what another open transaction relies on. */
  lemma CommitKeepsOrder(codec: Codec, s: Tables, x: Txn, y: Txn)
    requires TxnOk(codec, s, x) && TxnOk(codec, s, y) && x.stage == Ready && InOrder(s, x) && InOrder(s, y)
    requires Rivals(codec, x, y) && Rivals(codec, y, x)
    ensures InOrder(Committed(codec, s, x), y)
  {
    CommitAddsOne(codec, s, x, y.verb.name);
    if y.verb.Revoke? && y.stage == Ready && y.stamped.None? { RevokeHoldsOff(codec, s, x, y); }
  }

  /** While a revocation that found nothing is open, no credential of its worker can be ready. */
  lemma RevokeHoldsOff(codec: Codec, s: Tables, x: Txn, y: Txn)
    requires TxnOk(codec, s, x) && TxnOk(codec, s, y) && InOrder(s, x) && Rivals(codec, x, y)
    requires y.verb.Revoke? && y.stage == Ready && NoneLive(s, y.verb.name)
    ensures x.inserted && Issues(x) ==> x.verb.name != y.verb.name
  {
    if x.inserted && x.verb.Rotate? { assert LiveFor(s, x.stamped.value, x.verb.name); }
  }

  lemma FindInOrder(codec: Codec, s: State, t: nat, found: Option<string>)
    requires Inv(codec, s) && At(s, t, Finding)
    ensures FindStep(s, t, found) != s ==> InOrder(s.tables, FindStep(s, t, found).txns[t])
  {
    var x := s.txns[t];
    assert InOrder(s.tables, x) && TxnOk(codec, s.tables, x);
    TrustedHasLive(codec, s.tables, x.verb.name);
  }

  lemma AloneInOrder(codec: Codec, s: Tables, verb: W.Verb, x: Txn)
    requires !Compound(verb) && InOrder(s, x)
    ensures InOrder(W.After(codec, s, verb), x)
  {
    var s' := W.After(codec, s, verb);
    assert s'.credentials == s.credentials;
  }

  /** One transaction moves; the tables stay. */
  lemma StatementInOrder(codec: Codec, s: State, step: Step)
    requires Inv(codec, s) && !step.Commit? && !step.Alone?
    ensures Apply(codec, true, s, step).tables == s.tables
    ensures forall t | t in Apply(codec, true, s, step).txns ::
      InOrder(s.tables, Apply(codec, true, s, step).txns[t])
  {
    var s' := Apply(codec, true, s, step);
    OthersStay(codec, s, step);
    forall t | t in s'.txns ensures InOrder(s.tables, s'.txns[t]) {
      if t in s.txns {
        assert InOrder(s.tables, s.txns[t]) && TxnOk(codec, s.tables, s.txns[t]);
        if step.t == t { MoverInOrder(codec, s, step); }
      }
    }
  }

  lemma OthersStay(codec: Codec, s: State, step: Step)
    requires !step.Commit? && !step.Alone?
    ensures
      var s' := Apply(codec, true, s, step);
      s'.tables == s.tables && forall t | t in s'.txns && t != step.t :: t in s.txns && s'.txns[t] == s.txns[t]
  {}

  lemma MoverInOrder(codec: Codec, s: State, step: Step)
    requires Inv(codec, s) && !step.Commit? && !step.Alone? && step.t in s.txns
    ensures
      var s' := Apply(codec, true, s, step);
      step.t in s'.txns ==> InOrder(s.tables, s'.txns[step.t])
  {
    var t := step.t;
    assert InOrder(s.tables, s.txns[t]) && TxnOk(codec, s.tables, s.txns[t]);
    if step.Find? && At(s, t, Finding) { FindInOrder(codec, s, t, step.found); }
  }

  /** Every statement leaves the tables alone, or changes them as one verb does. */
  lemma StepInv(codec: Codec, s: State, step: Step)
    requires Inv(codec, s)
    ensures Inv(codec, Apply(codec, true, s, step))
    ensures
      var after := Apply(codec, true, s, step).tables;
      after == s.tables || exists verb :: Alike(after, W.After(codec, s.tables, verb))
  {
    StepLocked(codec, true, s, step);
    var s' := Apply(codec, true, s, step);
    if step.Alone? && !Compound(step.verb) {
      W.StepInv(codec, s.tables, step.verb);
      forall t | t in s'.txns ensures InOrder(s'.tables, s'.txns[t]) {
        AloneInOrder(codec, s.tables, step.verb, s.txns[t]);
      }
      assert Alike(s'.tables, W.After(codec, s.tables, step.verb));
    } else if step.Commit? && At(s, step.t, Ready) {
      var x := s.txns[step.t];
      assert TxnOk(codec, s.tables, x) && InOrder(s.tables, x);
      CommitIsVerb(codec, s.tables, x);
      forall t | t in s'.txns ensures InOrder(s'.tables, s'.txns[t]) {
        assert TxnOk(codec, s.tables, s.txns[t]) && InOrder(s.tables, s.txns[t]);
        assert Rivals(codec, x, s.txns[t]) && Rivals(codec, s.txns[t], x);
        CommitKeepsOrder(codec, s.tables, x, s.txns[t]);
      }
      assert Alike(s'.tables, W.After(codec, s.tables, x.verb));
    } else if !step.Alone? && !step.Commit? {
      StatementInOrder(codec, s, step);
    }
  }

  lemma {:induction false} RunInv(codec: Codec, s: State, steps: seq<Step>)
    requires Inv(codec, s)
    ensures Inv(codec, Run(codec, true, s, steps))
    decreases |steps|
  {
    if steps != [] {
      StepInv(codec, s, steps[0]);
      RunInv(codec, Apply(codec, true, s, steps[0]), steps[1..]);
    }
  }

  // ---------------------------------------------------------------------------
  // Main results.

  ghost predicate AlikeOutcomes(a: Outcome<Tables>, b: Outcome<Tables>) {
    (a.Ok? <==> b.Ok?) && (a.Ok? && b.Ok? ==> Alike(a.value, b.value))
  }

  lemma SameIssue(codec: Codec, a: Tables, b: Tables, name: string, g: Grant)
    requires Alike(a, b)
    ensures AlikeOutcomes(IssueSpec(codec, a, name, g), IssueSpec(codec, b, name, g))
  {
    assert Collides(a, g.id, codec.hash(g.secret), name) <==> Collides(b, g.id, codec.hash(g.secret), name);
  }

  lemma SameRevokeLive(a: Tables, b: Tables, name: string, now: int)
    requires Alike(a, b)
    ensures Alike(RevokeLive(a, name, now), RevokeLive(b, name, now))
  {
    assert RevokeLive(a, name, now).credentials == RevokeLive(b, name, now).credentials;
  }

  lemma SameCall(codec: Codec, a: Tables, b: Tables, verb: W.Verb)
    requires Alike(a, b)
    ensures AlikeOutcomes(W.Call(codec, a, verb), W.Call(codec, b, verb))
  {
    match verb
    case Approve(name, g) =>
      if SourceState(a, verb) { SameIssue(codec, WriteTrust(a, verb), WriteTrust(b, verb), name, g); }
    case Rotate(name, g) =>
      SameRevokeLive(a, b, name, g.now);
      SameIssue(codec, RevokeLive(a, name, g.now), RevokeLive(b, name, g.now), name, g);
    case Revoke(name, now) =>
      if SourceState(a, verb) { SameRevokeLive(WriteTrust(a, verb), WriteTrust(b, verb), name, now); }
    case _ =>
  }

  /** No verb looks at a revocation time. */
  lemma SameStep(codec: Codec, a: Tables, b: Tables, after: Tables, verb: W.Verb)
    requires Alike(a, b) && Alike(after, W.After(codec, a, verb))
    ensures Alike(after, W.After(codec, b, verb))
  {
    SameCall(codec, a, b, verb);
  }

  lemma {:induction false} SerialFrom(codec: Codec, s: State, steps: seq<Step>,
      before: seq<W.Verb>) returns (verbs: seq<W.Verb>)
    requires Inv(codec, s) && Alike(s.tables, W.Run(codec, EMPTY, before))
    ensures Alike(Run(codec, true, s, steps).tables, W.Run(codec, EMPTY, verbs))
    decreases |steps|
  {
    if steps == [] {
      verbs := before;
    } else {
      var s' := Apply(codec, true, s, steps[0]);
      StepInv(codec, s, steps[0]);
      var so := before;
      if s'.tables != s.tables {
        var verb :| Alike(s'.tables, W.After(codec, s.tables, verb));
        W.RunSnoc(codec, EMPTY, before, verb);
        SameStep(codec, s.tables, W.Run(codec, EMPTY, before), s'.tables, verb);
        so := before + [verb];
      }
      verbs := SerialFrom(codec, s', steps[1..], so);
    }
  }

  /** Every interleaving ends in the tables of some run of the verbs one at a time, but for revocation times. */
  lemma Serializable(codec: Codec, steps: seq<Step>) returns (verbs: seq<W.Verb>)
    ensures Alike(Run(codec, true, INIT, steps).tables, W.Run(codec, EMPTY, verbs))
  {
    assert W.Run(codec, EMPTY, []) == EMPTY;
    verbs := SerialFrom(codec, INIT, steps, []);
  }

  /** In every interleaving a trusted worker has exactly one unrevoked credential and any other worker none, and
      a token authenticates exactly when it presents the latest credential of its worker. */
  lemma EveryInterleaving(codec: Codec, steps: seq<Step>, token: string, now: int, name: string)
    requires W.Injective(codec.hash)
    ensures
      var s := Run(codec, true, INIT, steps).tables;
      var auth := AuthenticateSpec(codec, s, token, now);
      && |W.LiveIds(s, name)| == (if IsTrusted(s, name) then 1 else 0)
      && (auth.Some? && auth.value.worker == name <==> W.Current(codec, s, token, now, name))
  {
    RunInv(codec, INIT, steps);
    var s := Run(codec, true, INIT, steps).tables;
    W.OneLiveIn(codec, s, name);
    W.AuthenticatesIn(codec, s, token, now, name);
  }

  // ---------------------------------------------------------------------------
  // With a stale second look it fails.

  ghost predicate Reachable(codec: Codec, again: bool, s: State) { exists steps :: Run(codec, again, INIT, steps) == s }

  lemma {:induction false} RunSnoc(codec: Codec, again: bool, s: State, steps: seq<Step>, step: Step)
    ensures Run(codec, again, s, steps + [step]) == Apply(codec, again, Run(codec, again, s, steps), step)
    decreases |steps|
  {
    if steps == [] {
      assert steps + [step] == [step];
      assert Run(codec, again, Apply(codec, again, s, step), [step][1..]) == Apply(codec, again, s, step);
    } else {
      assert (steps + [step])[1..] == steps[1..] + [step];
      RunSnoc(codec, again, Apply(codec, again, s, steps[0]), steps[1..], step);
    }
  }

  lemma Next(codec: Codec, again: bool, s: State, step: Step) returns (s': State)
    requires Reachable(codec, again, s)
    ensures s' == Apply(codec, again, s, step) && Reachable(codec, again, s')
  {
    s' := Apply(codec, again, s, step);
    var steps :| Run(codec, again, INIT, steps) == s;
    RunSnoc(codec, again, INIT, steps, step);
  }

  const SCOPE := {"jobs:claim"}

  function First(): Grant { Grant(0, 10, SCOPE, "c1", "1") }

  function Second(): Grant { Grant(1, 10, SCOPE, "c2", "2") }

  function Idle(verb: W.Verb, stage: Stage): Txn { Txn(verb, stage, false, None, None, false) }

  function OneWorker(w: Worker, credentials: map<string, Credential>, issued: seq<Issue>): Tables {
    Tables(map["w" := w], credentials, issued)
  }

  function FirstCredential(codec: Codec, revokedAt: Option<int>): Credential {
    Credential("w", codec.hash("1"), SCOPE, 0, 10, revokedAt)
  }

  lemma Approving(codec: Codec, again: bool) returns (s: State)
    ensures Reachable(codec, again, s)
    ensures s.tables == OneWorker(Worker(Pending, None, None), map[], [])
    ensures s.txns == map[1 := Txn(W.Approve("w", First()), Rechecking, true, None, None, false)]
  {
    assert Run(codec, again, INIT, []) == INIT;
    s := Next(codec, again, INIT, Alone(W.Register("w")));
    s := Next(codec, again, s, Begin(1, W.Approve("w", First())));
    s := Next(codec, again, s, Read(1));
    s := Next(codec, again, s, Update(1));
  }

  lemma Inserted(codec: Codec, again: bool) returns (s: State)
    ensures Reachable(codec, again, s)
    ensures s.tables == OneWorker(Worker(Pending, None, None), map[], [])
    ensures s.txns == map[1 := Txn(W.Approve("w", First()), Ready, true, None, None, true)]
  {
    s := Approving(codec, again);
    s := Next(codec, again, s, Recheck(1));
    s := Next(codec, again, s, Insert(1));
  }

  lemma Approved(codec: Codec, again: bool) returns (s: State)
    ensures Reachable(codec, again, s) && s.txns == map[]
    ensures s.tables.workers == map["w" := Worker(Trusted, None, None)]
    ensures s.tables.credentials == map["c1" := FirstCredential(codec, None)]
  {
    s := Inserted(codec, again);
    s := Next(codec, again, s, Commit(1));
    assert s.txns == map[];
  }

  lemma BothLooked(codec: Codec, again: bool) returns (s: State)
    ensures Reachable(codec, again, s)
    ensures s.txns == map[1 := Idle(W.Rotate("w", Second()), Finding), 2 := Idle(W.Revoke("w", 1), Updating)]
    ensures s.tables.workers == map["w" := Worker(Trusted, None, None)]
    ensures s.tables.credentials == map["c1" := FirstCredential(codec, None)]
  {
    s := Approved(codec, again);
    s := Next(codec, again, s, Begin(1, W.Rotate("w", Second())));
    s := Next(codec, again, s, Read(1));
    assert s.txns == map[1 := Idle(W.Rotate("w", Second()), Finding)];
    s := Next(codec, again, s, Begin(2, W.Revoke("w", 1)));
    s := Next(codec, again, s, Read(2));
  }

  lemma RevokeFound(codec: Codec, again: bool) returns (s: State)
    ensures Reachable(codec, again, s)
    ensures s.txns.Keys == {1, 2} && s.txns[1] == Idle(W.Rotate("w", Second()), Finding)
    ensures s.txns[2] == Txn(W.Revoke("w", 1), Stamping, true, Some("c1"), None, false)
    ensures s.tables.workers == map["w" := Worker(Trusted, None, None)]
    ensures s.tables.credentials == map["c1" := FirstCredential(codec, None)]
  {
    s := BothLooked(codec, again);
    s := Next(codec, again, s, Update(2));
    assert s.txns[2] == Txn(W.Revoke("w", 1), Finding, true, None, None, false);
    assert LiveFor(s.tables, "c1", "w");
    s := Next(codec, again, s, Find(2, Some("c1")));
  }

  /** A rotation has looked at the worker; then a revocation runs to its end. */
  lemma RevokedMeanwhile(codec: Codec, again: bool) returns (s: State)
    ensures Reachable(codec, again, s) && s.txns == map[1 := Idle(W.Rotate("w", Second()), Finding)]
    ensures s.tables.workers == map["w" := Worker(Revoked, Some(1), None)]
    ensures s.tables.credentials == map["c1" := FirstCredential(codec, Some(1))]
  {
    s := RevokeFound(codec, again);
    s := Next(codec, again, s, Stamp(2));
    assert s.txns[2] == Txn(W.Revoke("w", 1), Ready, true, Some("c1"), Some("c1"), false);
    s := Next(codec, again, s, Commit(2));
    assert s.txns == map[1 := Idle(W.Rotate("w", Second()), Finding)];
  }

  ghost predicate LiveMeansTrusted(s: Tables) {
    forall id | id in s.credentials && Live(s.credentials[id]) :: IsTrusted(s, s.credentials[id].worker)
  }

  lemma PassedUnseen(codec: Codec) returns (s: State)
    ensures Reachable(codec, false, s) && s.txns == map[1 := Idle(W.Rotate("w", Second()), Inserting)]
    ensures s.tables.workers == map["w" := Worker(Revoked, Some(1), None)]
    ensures s.tables.credentials == map["c1" := FirstCredential(codec, Some(1))]
  {
    s := RevokedMeanwhile(codec, false);
    s := Next(codec, false, s, Find(1, None));
    s := Next(codec, false, s, Recheck(1));
  }

  /** A rotation and a revocation that race leave a revoked worker with a live credential, if the rotation's second
      look is not a read of the row. */
  lemma StaleLookLeaks(codec: Codec) returns (s: State)
    requires W.Injective(codec.hash)
    ensures Reachable(codec, false, s) && !LiveMeansTrusted(s.tables)
  {
    s := PassedUnseen(codec);
    assert codec.hash("1") != codec.hash("2");
    assert !Taken(codec, s.tables, s.txns[1]);
    s := Next(codec, false, s, Insert(1));
    assert s.txns == map[1 := Txn(W.Rotate("w", Second()), Ready, false, None, None, true)];
    s := Next(codec, false, s, Commit(1));
    assert LiveFor(s.tables, "c2", "w") && !IsTrusted(s.tables, "w");
  }

  /** Only trusted workers ever hold an unrevoked credential exactly when the second look reads the row anew. */
  lemma SecondLookDecides(codec: Codec, again: bool)
    requires W.Injective(codec.hash)
    ensures (forall s | Reachable(codec, again, s) :: LiveMeansTrusted(s.tables)) <==> again
  {
    if again {
      forall s | Reachable(codec, again, s) ensures LiveMeansTrusted(s.tables) {
        var steps :| Run(codec, again, INIT, steps) == s;
        RunInv(codec, INIT, steps);
        forall id | id in s.tables.credentials && Live(s.tables.credentials[id])
          ensures IsTrusted(s.tables, s.tables.credentials[id].worker)
        {
          assert W.LiveOk(codec, s.tables, id);
        }
      }
    } else {
      var s := StaleLookLeaks(codec);
    }
  }
}
