/**
 Worker enrollment: trust states, hashed bearer credentials, and the service verbs, each one transaction.
 Hashing and the reading of a credential id are parameters; so are the minted id and secret.
 */
module Workers {
  import opened Basics
  import opened Text

  datatype Trust = Pending | Trusted | Revoked

  datatype Worker = Worker(trust: Trust, revokedAt: Option<int>, quarantinedAt: Option<int>)

  datatype Credential = Credential(
    worker: string, tokenHash: string, scopes: set<string>, issuedAt: int, expiresAt: int, revokedAt: Option<int>)

  /** History: every credential ever issued, with its plaintext secret, in the order of issue. */
  datatype Issue = Issue(worker: string, id: string, secret: string)

  datatype Tables = Tables(workers: map<string, Worker>, credentials: map<string, Credential>, issued: seq<Issue>)

  /** `hash` is the digest of a secret; `canon` the id a presented spelling stands for, if it is one. */
  datatype Codec = Codec(hash: string -> string, canon: string -> Option<string>)

  /** What a caller asks for, and what is minted for it. */
  datatype Grant = Grant(now: int, ttl: int, scopes: set<string>, id: string, secret: string)

  datatype Error = Lookup | BadValue | Integrity

  type Outcome<T> = Result<T, Error>

  datatype Authenticated = Authenticated(worker: string, credential: string, scopes: set<string>, expiresAt: int)

  const EMPTY := Tables(map[], map[], [])

  const PREFIX := "ctfw1"

  const SCOPES := {
    "jobs:claim", "jobs:heartbeat", "jobs:complete", "artifacts:pull", "instances:report", "instances:transition"
  }

  // ---------------------------------------------------------------------------
  // Tokens.

  function Print(id: string, secret: string): string { PREFIX + "." + id + "." + secret }

  /** The text up to the first dot, up to the second, and all the rest. */
  function Parse(token: string): Option<(string, string)> {
    var i := IndexOf(token, '.');
    if i == |token| || token[..i] != PREFIX then None
    else
      var rest := token[i + 1..];
      var j := IndexOf(rest, '.');
      if j == |rest| || j == 0 || j + 1 == |rest| then None else Some((rest[..j], rest[j + 1..]))
  }

  /** A printed token reads back as what was printed exactly when the id is non-empty and has no dot, and the
      secret is non-empty; secrets may contain dots. */
  lemma PrintThenParse(id: string, secret: string)
    ensures Parse(Print(id, secret)) == Some((id, secret)) <==> id != "" && '.' !in id && secret != ""
  {
    var token := Print(id, secret);
    assert token[5] == '.' && token[..5] == PREFIX;
    IndexIs(token, '.', 5);
    var rest := token[6..];
    assert rest == id + "." + secret;
    if '.' !in id {
      assert rest[..|id|] == id && rest[|id|] == '.';
      IndexIs(rest, '.', |id|);
      assert rest[|id| + 1..] == secret;
    } else {
      var j := IndexOf(rest, '.');
      var k :| 0 <= k < |id| && id[k] == '.';
      assert rest[k] == '.';
      assert j <= k;
    }
  }

  /** Nothing else parses to it. */
  lemma ParseThenPrint(token: string)
    ensures Parse(token).Some? ==> Print(Parse(token).value.0, Parse(token).value.1) == token
  {
    if Parse(token).Some? {
      var i := IndexOf(token, '.');
      var rest := token[i + 1..];
      var j := IndexOf(rest, '.');
      assert rest == rest[..j] + "." + rest[j + 1..];
      assert token == token[..i] + "." + rest;
    }
  }

  // ---------------------------------------------------------------------------
  // The verbs, as functions of the tables.

  predicate Live(c: Credential) { c.revokedAt.None? }

  predicate LiveFor(s: Tables, id: string, name: string) {
    id in s.credentials && Live(s.credentials[id]) && s.credentials[id].worker == name
  }

  predicate IsTrusted(s: Tables, name: string) { name in s.workers && s.workers[name].trust == Trusted }

  function RegisterSpec(s: Tables, name: string): Outcome<Tables> {
    if name in s.workers then Err(Integrity)
    else Ok(s.(workers := s.workers[name := Worker(Pending, None, None)]))
  }

  /** The unique constraints: the id, the hash, and one live credential per worker. */
  predicate Collides(s: Tables, id: string, hash: string, name: string) {
    exists k | k in s.credentials :: k == id || s.credentials[k].tokenHash == hash || LiveFor(s, k, name)
  }

  function IssueSpec(codec: Codec, s: Tables, name: string, g: Grant): Outcome<Tables> {
    if !(g.scopes <= SCOPES) || g.ttl <= 0 then Err(BadValue)
    else if !IsTrusted(s, name) then Err(Lookup)
    else if g.scopes == {} then Err(BadValue)
    else if Collides(s, g.id, codec.hash(g.secret), name) then Err(Integrity)
    else
      var c := Credential(name, codec.hash(g.secret), g.scopes, g.now, g.now + g.ttl, None);
      Ok(s.(credentials := s.credentials[g.id := c], issued := s.issued + [Issue(name, g.id, g.secret)]))
  }

  function ApproveSpec(codec: Codec, s: Tables, name: string, g: Grant): Outcome<Tables> {
    if name !in s.workers || s.workers[name].trust != Pending then Err(Lookup)
    else IssueSpec(codec, s.(workers := s.workers[name := s.workers[name].(trust := Trusted)]), name, g)
  }

  /** Stamps the worker's live credential, if there is one. */
  function RevokeLive(s: Tables, name: string, now: int): Tables {
    s.(credentials := map id | id in s.credentials ::
         if LiveFor(s, id, name) then s.credentials[id].(revokedAt := Some(now)) else s.credentials[id])
  }

  function RotateSpec(codec: Codec, s: Tables, name: string, g: Grant): Outcome<Tables> {
    if !IsTrusted(s, name) then Err(Lookup) else IssueSpec(codec, RevokeLive(s, name, g.now), name, g)
  }

  function RevokeSpec(s: Tables, name: string, now: int): Outcome<Tables> {
    if name !in s.workers || s.workers[name].trust == Revoked then Err(Lookup)
    else
      var w := s.workers[name].(trust := Revoked, revokedAt := Some(now));
      Ok(RevokeLive(s.(workers := s.workers[name := w]), name, now))
  }

  function QuarantineSpec(s: Tables, name: string, now: int): Outcome<Tables> {
    if name !in s.workers then Err(Lookup)
    else Ok(s.(workers := s.workers[name := s.workers[name].(quarantinedAt := Some(now))]))
  }

  function ClearQuarantineSpec(s: Tables, name: string): Outcome<Tables> {
    if name !in s.workers || s.workers[name].quarantinedAt.None? then Err(Lookup)
    else Ok(s.(workers := s.workers[name := s.workers[name].(quarantinedAt := None)]))
  }

  function AuthenticateSpec(codec: Codec, s: Tables, token: string, now: int): Option<Authenticated> {
    match Parse(token)
    case None => None
    case Some(parts) =>
      var key := codec.canon(parts.0);
      if key.None? || key.value !in s.credentials then None
      else
        var c := s.credentials[key.value];
        if codec.hash(parts.1) != c.tokenHash || !Live(c) || c.expiresAt <= now then None
        else if !IsTrusted(s, c.worker) || s.workers[c.worker].quarantinedAt.Some? then None
        else Some(Authenticated(c.worker, key.value, c.scopes, c.expiresAt))
  }

  // ---------------------------------------------------------------------------
  // The service.

  ghost predicate Answers<T>(spec: Outcome<Tables>, before: Tables, after: Tables, r: Outcome<T>) {
    match spec
    case Ok(s) => r.Ok? && after == s
    case Err(e) => r.Err? && r.error == e && after == before
  }

  ghost predicate OneLiveEach(s: Tables) {
    forall a, b | a in s.credentials && b in s.credentials && Live(s.credentials[a]) && Live(s.credentials[b])
                  && s.credentials[a].worker == s.credentials[b].worker :: a == b
  }

  class Service {
    const codec: Codec
    var workers: map<string, Worker>
    var credentials: map<string, Credential>
    ghost var issued: seq<Issue>

    ghost function State(): Tables
      reads this
    {
      Tables(workers, credentials, issued)
    }

    constructor (codec: Codec)
      ensures State() == EMPTY && this.codec == codec
    {
      this.codec := codec;
      workers, credentials, issued := map[], map[], [];
    }

    method Register(name: string) returns (r: Outcome<()>)
      modifies this
      ensures Answers(RegisterSpec(old(State()), name), old(State()), State(), r)
    {
      if name in workers { return Err(Integrity); }
      workers := workers[name := Worker(Pending, None, None)];
      r := Ok(());
    }

    method Taken(id: string, hash: string, name: string) returns (taken: bool)
      ensures taken <==> Collides(State(), id, hash, name)
    {
      taken := false;
      var rest := credentials.Keys;
      while rest != {}
        invariant rest <= credentials.Keys
        invariant taken <==> exists k | k in credentials.Keys - rest ::
                               k == id || credentials[k].tokenHash == hash || LiveFor(State(), k, name)
        decreases |rest|
      {
        var k :| k in rest;
        rest := rest - {k};
        var c := credentials[k];
        taken := taken || k == id || c.tokenHash == hash || (c.worker == name && c.revokedAt.None?);
      }
    }

    method IssueTo(name: string, g: Grant) returns (r: Outcome<()>)
      modifies this
      ensures Answers(IssueSpec(codec, old(State()), name, g), old(State()), State(), r)
    {
      if !(g.scopes <= SCOPES) || g.ttl <= 0 { return Err(BadValue); }
      if name !in workers || workers[name].trust != Trusted { return Err(Lookup); }
      if g.scopes == {} { return Err(BadValue); }
      var hash := codec.hash(g.secret);
      var taken := Taken(g.id, hash, name);
      if taken { return Err(Integrity); }
      credentials := credentials[g.id := Credential(name, hash, g.scopes, g.now, g.now + g.ttl, None)];
      issued := issued + [Issue(name, g.id, g.secret)];
      r := Ok(());
    }

    /** Trust and first credential together; a failing issue takes the trust back. */
    method Approve(name: string, g: Grant) returns (r: Outcome<()>)
      modifies this
      ensures Answers(ApproveSpec(codec, old(State()), name, g), old(State()), State(), r)
    {
      if name !in workers || workers[name].trust != Pending { return Err(Lookup); }
      var saved := workers;
      workers := workers[name := workers[name].(trust := Trusted)];
      r := IssueTo(name, g);
      if r.Err? { workers := saved; }
    }

    method ActiveFor(name: string) returns (active: Option<string>)
      ensures active.Some? ==> LiveFor(State(), active.value, name)
      ensures active.None? ==> forall k :: !LiveFor(State(), k, name)
    {
      active := None;
      var rest := credentials.Keys;
      while rest != {}
        invariant rest <= credentials.Keys
        invariant active.Some? ==> LiveFor(State(), active.value, name)
        invariant active.None? ==> forall k | k in credentials.Keys - rest :: !LiveFor(State(), k, name)
        decreases |rest|
      {
        var k :| k in rest;
        rest := rest - {k};
        if credentials[k].worker == name && credentials[k].revokedAt.None? { active := Some(k); }
      }
    }

    method RevokeActive(name: string, now: int)
      requires OneLiveEach(State())
      modifies `credentials
      ensures State() == RevokeLive(old(State()), name, now)
    {
      var active := ActiveFor(name);
      ghost var spec := RevokeLive(State(), name, now).credentials;
      if active.Some? {
        credentials := credentials[active.value := credentials[active.value].(revokedAt := Some(now))];
      }
      assert credentials == spec;
    }

    method Rotate(name: string, g: Grant) returns (r: Outcome<()>)
      requires OneLiveEach(State())
      modifies this
      ensures Answers(RotateSpec(codec, old(State()), name, g), old(State()), State(), r)
    {
      if name !in workers || workers[name].trust != Trusted { return Err(Lookup); }
      var saved := credentials;
      RevokeActive(name, g.now);
      r := IssueTo(name, g);
      if r.Err? { credentials := saved; }
    }

    method Revoke(name: string, now: int) returns (r: Outcome<()>)
      requires OneLiveEach(State())
      modifies this
      ensures Answers(RevokeSpec(old(State()), name, now), old(State()), State(), r)
    {
      if name !in workers || workers[name].trust == Revoked { return Err(Lookup); }
      workers := workers[name := workers[name].(trust := Revoked, revokedAt := Some(now))];
      RevokeActive(name, now);
      r := Ok(());
    }

    method Quarantine(name: string, now: int) returns (r: Outcome<()>)
      modifies this
      ensures Answers(QuarantineSpec(old(State()), name, now), old(State()), State(), r)
    {
      if name !in workers { return Err(Lookup); }
      workers := workers[name := workers[name].(quarantinedAt := Some(now))];
      r := Ok(());
    }

    method ClearQuarantine(name: string) returns (r: Outcome<()>)
      modifies this
      ensures Answers(ClearQuarantineSpec(old(State()), name), old(State()), State(), r)
    {
      if name !in workers || workers[name].quarantinedAt.None? { return Err(Lookup); }
      workers := workers[name := workers[name].(quarantinedAt := None)];
      r := Ok(());
    }

    method Authenticate(token: string, now: int) returns (r: Option<Authenticated>)
      ensures r == AuthenticateSpec(codec, State(), token, now)
    {
      var parsed := Parse(token);
      if parsed.None? { return None; }
      var hash := codec.hash(parsed.value.1);
      var key := codec.canon(parsed.value.0);
      if key.None? || key.value !in credentials { return None; }
      var c := credentials[key.value];
      if hash != c.tokenHash { return None; }
      if c.revokedAt.Some? { return None; }
      if c.expiresAt <= now { return None; }
      if c.worker !in workers { return None; }
      var w := workers[c.worker];
      if w.trust != Trusted || w.quarantinedAt.Some? { return None; }
      r := Some(Authenticated(c.worker, key.value, c.scopes, c.expiresAt));
    }
  }
}
