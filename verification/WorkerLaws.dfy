/** The credential lifecycle over every run of the enrollment verbs. */
module WorkerLaws {
  import opened Basics
  import opened Workers

  datatype Verb =
    | Register(name: string)
    | Approve(name: string, g: Grant)
    | Rotate(name: string, g: Grant)
    | Revoke(name: string, now: int)
    | Quarantine(name: string, now: int)
    | ClearQuarantine(name: string)

  function Call(codec: Codec, s: Tables, verb: Verb): Outcome<Tables> {
    match verb
    case Register(name) => RegisterSpec(s, name)
    case Approve(name, g) => ApproveSpec(codec, s, name, g)
    case Rotate(name, g) => RotateSpec(codec, s, name, g)
    case Revoke(name, now) => RevokeSpec(s, name, now)
    case Quarantine(name, now) => QuarantineSpec(s, name, now)
    case ClearQuarantine(name) => ClearQuarantineSpec(s, name)
  }

  function After(codec: Codec, s: Tables, verb: Verb): Tables {
    match Call(codec, s, verb) case Ok(s') => s' case Err(_) => s
  }

  function Run(codec: Codec, s: Tables, verbs: seq<Verb>): Tables
    decreases |verbs|
  {
    if verbs == [] then s else Run(codec, After(codec, s, verbs[0]), verbs[1..])
  }

  lemma {:induction false} RunSnoc(codec: Codec, s: Tables, verbs: seq<Verb>, verb: Verb)
    ensures Run(codec, s, verbs + [verb]) == After(codec, Run(codec, s, verbs), verb)
    decreases |verbs|
  {
    if verbs == [] {
      assert verbs + [verb] == [verb];
      assert Run(codec, After(codec, s, verb), [verb][1..]) == After(codec, s, verb);
    } else {
      assert (verbs + [verb])[1..] == verbs[1..] + [verb];
      RunSnoc(codec, After(codec, s, verbs[0]), verbs[1..], verb);
    }
  }

  // ---------------------------------------------------------------------------
  // The invariant.

  /** The latest credential issued to a worker. */
  function Latest(issued: seq<Issue>, name: string): Option<Issue>
    decreases |issued|
  {
    if issued == [] then None
    else
      var n := |issued| - 1;
      if issued[n].worker == name then Some(issued[n]) else Latest(issued[..n], name)
  }

  lemma LatestAppend(issued: seq<Issue>, i: Issue, name: string)
    ensures Latest(issued + [i], name) == if i.worker == name then Some(i) else Latest(issued, name)
  {
    assert (issued + [i])[..|issued|] == issued;
  }

  /** A live credential is the latest issued to its owner, who is trusted. */
  predicate LiveOk(codec: Codec, s: Tables, id: string)
    requires id in s.credentials
  {
    var c := s.credentials[id];
    && IsTrusted(s, c.worker)
    && Latest(s.issued, c.worker).Some?
    && Latest(s.issued, c.worker).value.id == id
    && c.tokenHash == codec.hash(Latest(s.issued, c.worker).value.secret)
  }

  ghost predicate AllLiveOk(codec: Codec, s: Tables) {
    forall id | id in s.credentials && Live(s.credentials[id]) :: LiveOk(codec, s, id)
  }

  /** A trusted worker has a live credential. */
  ghost predicate TrustedCovered(s: Tables) {
    forall name | IsTrusted(s, name) :: exists id :: LiveFor(s, id, name)
  }

  ghost predicate OwnersKnown(s: Tables) {
    && (forall id | id in s.credentials :: s.credentials[id].worker in s.workers)
    && (forall i | i in s.issued :: i.worker in s.workers && s.workers[i.worker].trust != Pending)
    && (forall name | name in s.workers :: s.workers[name].trust == Revoked <==> s.workers[name].revokedAt.Some?)
  }

  ghost predicate Inv(codec: Codec, s: Tables) { AllLiveOk(codec, s) && TrustedCovered(s) && OwnersKnown(s) }

  lemma InvOneLive(codec: Codec, s: Tables)
    requires Inv(codec, s)
    ensures OneLiveEach(s)
  {
    forall a, b | a in s.credentials && b in s.credentials && Live(s.credentials[a]) && Live(s.credentials[b])
                  && s.credentials[a].worker == s.credentials[b].worker
      ensures a == b
    {
      assert LiveOk(codec, s, a) && LiveOk(codec, s, b);
    }
  }

  /** Issuing to a worker without a live credential, all else being in order. */
  lemma IssueInv(codec: Codec, s: Tables, name: string, g: Grant)
    requires IssueSpec(codec, s, name, g).Ok?
    requires AllLiveOk(codec, s) && OwnersKnown(s)
    requires forall other | IsTrusted(s, other) && other != name :: exists id :: LiveFor(s, id, other)
    ensures Inv(codec, IssueSpec(codec, s, name, g).value)
    ensures LiveFor(IssueSpec(codec, s, name, g).value, g.id, name)
  {
    var s' := IssueSpec(codec, s, name, g).value;
    IssueLive(codec, s, name, g);
    assert LiveFor(s', g.id, name);
    forall other | IsTrusted(s', other) ensures exists id :: LiveFor(s', id, other) {
      if other != name {
        assert IsTrusted(s, other);
        var id :| LiveFor(s, id, other);
        assert LiveFor(s', id, other);
      }
    }
  }

  lemma IssueLive(codec: Codec, s: Tables, name: string, g: Grant)
    requires IssueSpec(codec, s, name, g).Ok? && AllLiveOk(codec, s)
    ensures AllLiveOk(codec, IssueSpec(codec, s, name, g).value)
  {
    var s' := IssueSpec(codec, s, name, g).value;
    forall id | id in s'.credentials && Live(s'.credentials[id]) ensures LiveOk(codec, s', id) {
      LatestAppend(s.issued, Issue(name, g.id, g.secret), s'.credentials[id].worker);
      if id != g.id {
        assert LiveOk(codec, s, id);
        assert !LiveFor(s, id, name);
      }
    }
  }

  lemma RevokeLiveKeeps(codec: Codec, s: Tables, name: string, now: int)
    requires AllLiveOk(codec, s) && OwnersKnown(s)
    ensures AllLiveOk(codec, RevokeLive(s, name, now)) && OwnersKnown(RevokeLive(s, name, now))
    ensures forall id :: !LiveFor(RevokeLive(s, name, now), id, name)
    ensures forall id, other | other != name :: LiveFor(RevokeLive(s, name, now), id, other) <==> LiveFor(s, id, other)
  {
    var s' := RevokeLive(s, name, now);
    forall id | id in s'.credentials && Live(s'.credentials[id]) ensures LiveOk(codec, s', id) {
      assert LiveOk(codec, s, id);
    }
  }

  lemma ApproveInv(codec: Codec, s: Tables, name: string, g: Grant)
    requires Inv(codec, s) && ApproveSpec(codec, s, name, g).Ok?
    ensures Inv(codec, ApproveSpec(codec, s, name, g).value)
  {
    var mid := s.(workers := s.workers[name := s.workers[name].(trust := Trusted)]);
    forall id | id in mid.credentials && Live(mid.credentials[id]) ensures LiveOk(codec, mid, id) {
      assert LiveOk(codec, s, id);
    }
    forall other | IsTrusted(mid, other) && other != name ensures exists id :: LiveFor(mid, id, other) {
      assert IsTrusted(s, other);
      var id :| LiveFor(s, id, other);
      assert LiveFor(mid, id, other);
    }
    IssueInv(codec, mid, name, g);
  }

  lemma RotateInv(codec: Codec, s: Tables, name: string, g: Grant)
    requires Inv(codec, s) && RotateSpec(codec, s, name, g).Ok?
    ensures Inv(codec, RotateSpec(codec, s, name, g).value)
  {
    var mid := RevokeLive(s, name, g.now);
    RevokeLiveKeeps(codec, s, name, g.now);
    forall other | IsTrusted(mid, other) && other != name ensures exists id :: LiveFor(mid, id, other) {
      assert IsTrusted(s, other);
      var id :| LiveFor(s, id, other);
      assert LiveFor(mid, id, other);
    }
    IssueInv(codec, mid, name, g);
  }

  lemma RevokeInv(codec: Codec, s: Tables, name: string, now: int)
    requires Inv(codec, s) && RevokeSpec(s, name, now).Ok?
    ensures Inv(codec, RevokeSpec(s, name, now).value)
  {
    var s' := RevokeSpec(s, name, now).value;
    forall id | id in s'.credentials && Live(s'.credentials[id]) ensures LiveOk(codec, s', id) {
      assert LiveOk(codec, s, id);
    }
    forall other | IsTrusted(s', other) ensures exists id :: LiveFor(s', id, other) {
      assert IsTrusted(s, other);
      var id :| LiveFor(s, id, other);
      assert LiveFor(s', id, other);
    }
  }

  /** Changes of a worker that leave its trust alone. */
  lemma SameTrustInv(codec: Codec, s: Tables, name: string, w: Worker)
    requires Inv(codec, s) && name in s.workers
    requires w.trust == s.workers[name].trust && w.revokedAt == s.workers[name].revokedAt
    ensures Inv(codec, s.(workers := s.workers[name := w]))
  {
    var s' := s.(workers := s.workers[name := w]);
    forall id | id in s'.credentials && Live(s'.credentials[id]) ensures LiveOk(codec, s', id) {
      assert LiveOk(codec, s, id);
    }
    forall other | IsTrusted(s', other) ensures exists id :: LiveFor(s', id, other) {
      assert IsTrusted(s, other);
      var id :| LiveFor(s, id, other);
      assert LiveFor(s', id, other);
    }
  }

  lemma RegisterInv(codec: Codec, s: Tables, name: string)
    requires Inv(codec, s) && name !in s.workers
    ensures Inv(codec, RegisterSpec(s, name).value)
  {
    var s' := RegisterSpec(s, name).value;
    forall id | id in s'.credentials && Live(s'.credentials[id]) ensures LiveOk(codec, s', id) {
      assert LiveOk(codec, s, id);
    }
    forall other | IsTrusted(s', other) ensures exists id :: LiveFor(s', id, other) {
      assert IsTrusted(s, other);
      var id :| LiveFor(s, id, other);
      assert LiveFor(s', id, other);
    }
  }

  lemma StepInv(codec: Codec, s: Tables, verb: Verb)
    requires Inv(codec, s)
    ensures Inv(codec, After(codec, s, verb))
  {
    if Call(codec, s, verb).Ok? {
      match verb
      case Register(name) => RegisterInv(codec, s, name);
      case Approve(name, g) => ApproveInv(codec, s, name, g);
      case Rotate(name, g) => RotateInv(codec, s, name, g);
      case Revoke(name, now) => RevokeInv(codec, s, name, now);
      case Quarantine(name, now) => SameTrustInv(codec, s, name, s.workers[name].(quarantinedAt := Some(now)));
      case ClearQuarantine(name) => SameTrustInv(codec, s, name, s.workers[name].(quarantinedAt := None));
    }
  }

  lemma {:induction false} RunInv(codec: Codec, s: Tables, verbs: seq<Verb>)
    requires Inv(codec, s)
    ensures Inv(codec, Run(codec, s, verbs))
    decreases |verbs|
  {
    if verbs != [] {
      StepInv(codec, s, verbs[0]);
      RunInv(codec, After(codec, s, verbs[0]), verbs[1..]);
    }
  }

  // ---------------------------------------------------------------------------
  // Main results.

  ghost function LiveIds(s: Tables, name: string): set<string> { set id | id in s.credentials && LiveFor(s, id, name) }

  lemma LiveMeansTrusted(codec: Codec, s: Tables, id: string, name: string)
    requires AllLiveOk(codec, s)
    ensures LiveFor(s, id, name) ==> IsTrusted(s, name)
  {
    assert LiveFor(s, id, name) ==> LiveOk(codec, s, id);
  }

  lemma OneLiveIn(codec: Codec, s: Tables, name: string)
    requires Inv(codec, s)
    ensures |LiveIds(s, name)| == if IsTrusted(s, name) then 1 else 0
  {
    if IsTrusted(s, name) {
      var id :| LiveFor(s, id, name);
      forall k | k in LiveIds(s, name) ensures k == id { assert LiveOk(codec, s, k) && LiveOk(codec, s, id); }
      assert LiveIds(s, name) == {id};
    } else {
      forall k ensures k !in LiveIds(s, name) { LiveMeansTrusted(codec, s, k, name); }
      assert LiveIds(s, name) == {};
    }
  }

  /** In every reachable state a trusted worker has exactly one unrevoked credential, and any other worker has
      none: rotation opens no window with zero or two. So the service always finds the rows as its verbs require. */
  lemma OneLiveCredential(codec: Codec, verbs: seq<Verb>, name: string)
    ensures
      var s := Run(codec, EMPTY, verbs);
      |LiveIds(s, name)| == (if IsTrusted(s, name) then 1 else 0) && OneLiveEach(s)
  {
    RunInv(codec, EMPTY, verbs);
    InvOneLive(codec, Run(codec, EMPTY, verbs));
    OneLiveIn(codec, Run(codec, EMPTY, verbs), name);
  }

  ghost predicate Injective(f: string -> string) { forall a, b | f(a) == f(b) :: a == b }

  /** The presented token carries the id and the secret of this issue. */
  predicate Presents(codec: Codec, token: string, i: Issue) {
    var parts := Parse(token);
    parts.Some? && codec.canon(parts.value.0) == Some(i.id) && parts.value.1 == i.secret
  }

  /** The token presents the latest credential issued to the worker, which has not expired, and the worker is
      trusted and not quarantined. */
  ghost predicate Current(codec: Codec, s: Tables, token: string, now: int, name: string) {
    var i := Latest(s.issued, name);
    && IsTrusted(s, name) && s.workers[name].quarantinedAt.None?
    && i.Some? && Presents(codec, token, i.value)
    && i.value.id in s.credentials && now < s.credentials[i.value.id].expiresAt
  }

  lemma AuthenticatesIn(codec: Codec, s: Tables, token: string, now: int, name: string)
    requires Injective(codec.hash) && Inv(codec, s)
    ensures
      var auth := AuthenticateSpec(codec, s, token, now);
      auth.Some? && auth.value.worker == name <==> Current(codec, s, token, now, name)
  {
    AcceptedIsLatest(codec, s, token, now);
    if IsTrusted(s, name) {
      var id :| LiveFor(s, id, name);
      assert LiveOk(codec, s, id);
    }
  }

  /** With a collision-free digest a token authenticates as a worker exactly when it presents the latest
      credential issued to that worker, before it expires, while the worker is trusted and not quarantined. */
  lemma AuthenticatesExactly(codec: Codec, verbs: seq<Verb>, token: string, now: int, name: string)
    requires Injective(codec.hash)
    ensures
      var s := Run(codec, EMPTY, verbs);
      var auth := AuthenticateSpec(codec, s, token, now);
      auth.Some? && auth.value.worker == name <==> Current(codec, s, token, now, name)
  {
    RunInv(codec, EMPTY, verbs);
    AuthenticatesIn(codec, Run(codec, EMPTY, verbs), token, now, name);
  }

  lemma AcceptedIsLatest(codec: Codec, s: Tables, token: string, now: int)
    requires Injective(codec.hash) && Inv(codec, s)
    ensures
      var auth := AuthenticateSpec(codec, s, token, now);
      auth.Some? ==>
        var i := Latest(s.issued, auth.value.worker);
        i.Some? && i.value.id == auth.value.credential && Presents(codec, token, i.value)
  {
    var auth := AuthenticateSpec(codec, s, token, now);
    if auth.Some? { assert LiveOk(codec, s, auth.value.credential); }
  }

  /** Revocation is terminal: from then on no token authenticates as that worker, whatever runs. */
  lemma {:induction false} RevokedForGood(codec: Codec, s: Tables, verbs: seq<Verb>, name: string)
    requires name in s.workers && s.workers[name].trust == Revoked
    ensures
      var s' := Run(codec, s, verbs);
      name in s'.workers && s'.workers[name].trust == Revoked
    decreases |verbs|
  {
    if verbs != [] { RevokedForGood(codec, After(codec, s, verbs[0]), verbs[1..], name); }
  }

  lemma RevokedNeverAuthenticates(codec: Codec, s: Tables, name: string, at: int, verbs: seq<Verb>,
      token: string, now: int)
    requires RevokeSpec(s, name, at).Ok?
    ensures
      var auth := AuthenticateSpec(codec, Run(codec, RevokeSpec(s, name, at).value, verbs), token, now);
      auth.Some? ==> auth.value.worker != name
  {
    RevokedForGood(codec, RevokeSpec(s, name, at).value, verbs, name);
  }

  /** After a successful rotation the new token is the one that works, and no other works for this worker. */
  lemma RotationSwitches(codec: Codec, s: Tables, name: string, g: Grant, token: string, now: int)
    requires Inv(codec, s) && Injective(codec.hash) && RotateSpec(codec, s, name, g).Ok?
    ensures
      var s' := RotateSpec(codec, s, name, g).value;
      var auth := AuthenticateSpec(codec, s', token, now);
      auth.Some? && auth.value.worker == name <==>
        Presents(codec, token, Issue(name, g.id, g.secret)) && now < g.now + g.ttl &&
            s.workers[name].quarantinedAt.None?
  {
    var s' := RotateSpec(codec, s, name, g).value;
    RotateInv(codec, s, name, g);
    AcceptedIsLatest(codec, s', token, now);
    LatestAppend(s.issued, Issue(name, g.id, g.secret), name);
    assert s'.credentials[g.id] == Credential(name, codec.hash(g.secret), g.scopes, g.now, g.now + g.ttl, None);
  }
}
