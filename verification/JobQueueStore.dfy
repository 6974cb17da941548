/** The repository over the job tables, as the methods that lock, change and flush rows. */
module JobQueueStore {
  import opened Basics
  import opened JobQueue
  import Laws = JobQueueLaws

  /** A verb did what its specification says, or failed with the specified error and changed nothing. */
  ghost predicate Answers<T>(spec: Outcome<Tables>, before: Tables, after: Tables, r: Outcome<T>) {
    match spec
    case Ok(s) => r.Ok? && after == s
    case Err(e) => r.Err? && r.error == e && after == before
  }

  /** Reaping a list of rows one after the other. */
  function ReapAll(s: Tables, ids: seq<string>, now: int): Tables
    decreases |ids|
  {
    if ids == [] then s
    else
      var n := |ids| - 1;
      Laws.After(ReapAll(s, ids[..n], now), Laws.Reap(ids[n], now))
  }

  function ExpiryOf(s: Tables, id: string): int {
    if id in s.jobs && s.jobs[id].leaseExpiresAt.Some? then s.jobs[id].leaseExpiresAt.value else 0
  }

  /** The reaped rows were expired, are not any more, and came before every row that still is. */
  ghost predicate Reaped(first: Tables, s: Tables, ids: seq<string>, now: int) {
    && (forall id | id in ids :: Expired(first, id, now) && !Expired(s, id, now))
    && (forall k | Expired(s, k, now) :: Expired(first, k, now) && ExpiryOf(s, k) == ExpiryOf(first, k))
    && (forall id, k | id in ids && Expired(s, k, now) :: ExpiryOf(first, id) <= ExpiryOf(first, k))
  }

  ghost predicate OneReaped(s: Tables, s': Tables, id: string, now: int) {
    && !Expired(s', id, now)
    && (forall k | k != id :: Expired(s', k, now) == Expired(s, k, now) && ExpiryOf(s', k) == ExpiryOf(s, k))
  }

  /** Tables the verbs can produce. */
  ghost predicate Reachable(s: Tables) { exists verbs :: Laws.Run(Laws.EMPTY, verbs) == s }

  lemma {:induction false} RunSnoc(s: Tables, verbs: seq<Laws.Verb>, verb: Laws.Verb)
    ensures Laws.Run(s, verbs + [verb]) == Laws.After(Laws.Run(s, verbs), verb)
    decreases |verbs|
  {
    if verbs == [] {
      assert [verb][1..] == [] && verbs + [verb] == [verb];
      assert Laws.Run(Laws.After(s, verb), []) == Laws.After(s, verb);
    } else {
      assert (verbs + [verb])[1..] == verbs[1..] + [verb];
      RunSnoc(Laws.After(s, verbs[0]), verbs[1..], verb);
    }
  }

  lemma ReapAccepted(s: Tables, id: string, now: int)
    requires Reachable(s) && Expired(s, id, now)
    ensures ReapSpec(s, id, now).Ok?
  {
    var verbs :| Laws.Run(Laws.EMPTY, verbs) == s;
    Laws.RunInv(Laws.EMPTY, verbs);
    Laws.ReapInv(s, id, now);
    assert ReapSpec(s, id, now) != Err(Lookup);
  }

  lemma ReapReaches(s: Tables, id: string, now: int)
    requires Reachable(s)
    ensures Reachable(Laws.After(s, Laws.Reap(id, now)))
  {
    var verbs :| Laws.Run(Laws.EMPTY, verbs) == s;
    RunSnoc(Laws.EMPTY, verbs, Laws.Reap(id, now));
  }

  lemma OneReap(s: Tables, id: string, now: int)
    requires Reachable(s) && Expired(s, id, now)
    ensures ReapSpec(s, id, now).Ok? && Reachable(ReapSpec(s, id, now).value)
    ensures OneReaped(s, ReapSpec(s, id, now).value, id, now)
  {
    ReapAccepted(s, id, now);
    ReapReaches(s, id, now);
  }

  class Store {
    var jobs: map<string, Job>
    var log: seq<Transition>
    ghost var minted: set<string>

    ghost function Rows(): Tables
      reads this
    {
      Tables(jobs, log, minted)
    }

    constructor ()
      ensures Rows() == Laws.EMPTY
    {
      jobs, log, minted := map[], [], {};
    }

    /** The UPDATE, with its trigger and CHECKs, and the history entry of a status change. */
    method Flush(id: string, row: Job, entry: Option<Transition>) returns (r: Outcome<()>)
      requires id in jobs
      modifies this
      ensures minted == old(minted)
      ensures r.Ok? <==> Update(old(Rows()), id, row).Ok?
      ensures r.Ok? ==> jobs == old(jobs)[id := row] && log == old(log) + (if entry.Some? then [entry.value] else [])
      ensures r.Err? ==> r.error == Integrity && Rows() == old(Rows())
    {
      if !Guard(jobs[id], row) || !Checks(row) { return Err(Integrity); }
      jobs := jobs[id := row];
      if entry.Some? { log := log + [entry.value]; }
      r := Ok(());
    }

    method Enqueue(job: Job, now: int) returns (r: Outcome<Job>)
      modifies this
      ensures Answers(EnqueueSpec(old(Rows()), job, now), old(Rows()), Rows(), r)
    {
      if !FreshlyEnqueued(job) { return Err(BadValue); }
      var row := job.(leaseToken := None);
      var taken := false;
      var rest := jobs.Keys;
      while rest != {}
        invariant rest <= jobs.Keys
        invariant taken <==> exists id | id in jobs.Keys - rest :: jobs[id].key == job.key
        decreases |rest|
      {
        var id :| id in rest;
        rest := rest - {id};
        taken := taken || jobs[id].key == job.key;
      }
      if job.id in jobs || taken || !Checks(row) { return Err(Integrity); }
      jobs := jobs[job.id := row];
      log := log + [Transition(job.id, None, Queued, 0, now, None, None)];
      r := Ok(row);
    }

    /** The row the claim's SELECT returns. */
    method FindBest(capabilities: set<string>, now: int) returns (best: Option<string>)
      ensures best.Some? ==> Best(Rows(), best.value, capabilities, now)
      ensures best.None? ==> forall id | id in jobs :: !Claimable(jobs[id], capabilities, now)
    {
      best := None;
      var rest := jobs.Keys;
      while rest != {}
        invariant rest <= jobs.Keys
        invariant best.Some? ==> best.value in jobs && Claimable(jobs[best.value], capabilities, now)
        invariant best.Some? ==> forall k | k in jobs.Keys - rest && Claimable(jobs[k], capabilities, now) ::
                                   !Sooner(jobs[k], jobs[best.value])
        invariant best.None? ==> forall k | k in jobs.Keys - rest :: !Claimable(jobs[k], capabilities, now)
        decreases |rest|
      {
        var k :| k in rest;
        rest := rest - {k};
        if Claimable(jobs[k], capabilities, now) {
          if best.None? || Sooner(jobs[k], jobs[best.value]) { best := Some(k); }
        }
      }
    }

    /** `token` is freshly minted. */
    method Claim(worker: string, capabilities: set<string>, leaseSeconds: int, now: int, token: string)
      returns (r: Outcome<Option<string>>)
      requires token !in minted
      modifies this
      ensures r == Ok(None) ==>
        Rows() == old(Rows()) && forall id | id in jobs :: !Claimable(jobs[id], capabilities, now)
      ensures r.Ok? && r.value.Some? ==>
        && Best(old(Rows()), r.value.value, capabilities, now)
        && ClaimSpec(old(Rows()), r.value.value, worker, leaseSeconds, now, token) == Ok(Rows())
      ensures r.Err? ==>
        && Rows() == old(Rows())
        && exists id :: Best(Rows(), id, capabilities, now)
             && ClaimSpec(Rows(), id, worker, leaseSeconds, now, token) == Err(r.error)
    {
      var best := FindBest(capabilities, now);
      if best.None? { return Ok(None); }
      var id := best.value;
      var row := jobs[id].(status := Claimed);
      row := row.(claimedBy := Some(worker), leaseToken := Some(token));
      row := row.(leaseExpiresAt := Some(now + leaseSeconds), heartbeatAt := Some(now));
      row := row.(attempt := row.attempt + 1);
      var entry := Transition(row.id, Some(Queued), Claimed, row.attempt, now, Some(worker), None);
      var flushed := Flush(id, row, Some(entry));
      if flushed.Err? { return Err(flushed.error); }
      minted := minted + {token};
      r := Ok(Some(id));
    }

    method Start(id: string, token: string, now: int) returns (r: Outcome<()>)
      modifies this
      ensures Answers(StartSpec(old(Rows()), id, token, now), old(Rows()), Rows(), r)
    {
      if id !in jobs || jobs[id].leaseToken != Some(token) { return Err(Lookup); }
      var row := jobs[id];
      if row.status != Claimed { return Err(Lookup); }
      row := row.(status := Running, startedAt := Some(now));
      r := Flush(id, row, Some(Transition(row.id, Some(Claimed), Running, row.attempt, now, row.claimedBy, None)));
    }

    /** Reports whether a cancel is pending. */
    method Heartbeat(id: string, token: string, leaseSeconds: int, now: int) returns (r: Outcome<bool>)
      modifies this
      ensures Answers(HeartbeatSpec(old(Rows()), id, token, leaseSeconds, now), old(Rows()), Rows(), r)
      ensures r.Ok? ==> id in old(jobs) && (r.value <==> old(jobs)[id].cancelRequestedAt.Some?)
    {
      if id !in jobs || jobs[id].leaseToken != Some(token) { return Err(Lookup); }
      var row := jobs[id].(leaseExpiresAt := Some(now + leaseSeconds));
      row := row.(heartbeatAt := Some(now));
      var flushed := Flush(id, row, None);
      if flushed.Err? { return Err(flushed.error); }
      r := Ok(row.cancelRequestedAt.Some?);
    }

    method Complete(id: string, token: string, result: Option<string>, now: int) returns (r: Outcome<()>)
      modifies this
      ensures Answers(CompleteSpec(old(Rows()), id, token, result, now), old(Rows()), Rows(), r)
    {
      if id !in jobs || jobs[id].leaseToken != Some(token) { return Err(Lookup); }
      var row := jobs[id];
      if row.status != Running { return Err(Lookup); }
      var worker := row.claimedBy;
      row := row.(status := Succeeded, finishedAt := Some(now));
      row := row.(result := result);
      row := ClearLease(row);
      r := Flush(id, row, Some(Transition(row.id, Some(Running), Succeeded, row.attempt, now, worker, None)));
    }

    method Fail(id: string, token: string, error: ErrorClass, retryable: bool, now: int) returns (r: Outcome<Job>)
      modifies this
      ensures Answers(FailSpec(old(Rows()), id, token, error, retryable, now), old(Rows()), Rows(), r)
      ensures r.Ok? ==> id in jobs && r.value == jobs[id]
    {
      if id !in jobs || jobs[id].leaseToken != Some(token) { return Err(Lookup); }
      var row := jobs[id];
      var from, worker := row.status, row.claimedBy;
      if error.Stopped? {
        if !Leased(from) { return Err(Lookup); }
        row := ClearLease(row.(status := Cancelled, finishedAt := Some(now), errorClass := Some(error)));
      } else if from != Running {
        return Err(Lookup);
      } else if !retryable {
        row := ClearLease(row.(status := Failed, finishedAt := Some(now), errorClass := Some(error)));
      } else {
        row := RequeueOrDeadLetter(row, now, error);
      }
      var entry := Transition(row.id, Some(from), row.status, row.attempt, now, worker, Some(error));
      var flushed := Flush(id, row, Some(entry));
      if flushed.Err? { return Err(flushed.error); }
      r := Ok(row);
    }

    method RequestCancel(id: string, now: int) returns (r: Outcome<Job>)
      modifies this
      ensures Answers(CancelSpec(old(Rows()), id, now), old(Rows()), Rows(), r)
      ensures r.Ok? ==> id in jobs && r.value == jobs[id]
    {
      if id !in jobs || Terminal(jobs[id].status) { return Err(Lookup); }
      var row := jobs[id];
      var flushed: Outcome<()>;
      if row.status == Queued {
        row := row.(status := Cancelled, cancelRequestedAt := Some(now), finishedAt := Some(now));
        var entry := Transition(row.id, Some(Queued), Cancelled, row.attempt, now, None, None);
        flushed := Flush(id, row, Some(entry));
      } else {
        row := row.(cancelRequestedAt := Some(now));
        flushed := Flush(id, row, None);
      }
      if flushed.Err? { return Err(flushed.error); }
      r := Ok(row);
    }

    method RetryDeadLetter(id: string, now: int) returns (r: Outcome<Job>)
      modifies this
      ensures Answers(RetrySpec(old(Rows()), id, now), old(Rows()), Rows(), r)
    {
      if id !in jobs || jobs[id].status != DeadLetter { return Err(Lookup); }
      var row := jobs[id];
      row := row.(status := Queued, attempt := 0, availableAt := now);
      row := row.(finishedAt := None, errorClass := None, cancelRequestedAt := None);
      var flushed := Flush(id, row, Some(Transition(row.id, Some(DeadLetter), Queued, 0, now, None, None)));
      if flushed.Err? { return Err(flushed.error); }
      r := Ok(row);
    }

    /** The expired row with the earliest expiry. */
    method FindExpired(now: int) returns (found: Option<string>)
      ensures found.Some? ==>
        && Expired(Rows(), found.value, now)
        && forall k | Expired(Rows(), k, now) :: ExpiryOf(Rows(), found.value) <= ExpiryOf(Rows(), k)
      ensures found.None? ==> forall k :: !Expired(Rows(), k, now)
    {
      found := None;
      var rest := jobs.Keys;
      while rest != {}
        invariant rest <= jobs.Keys
        invariant found.Some? ==> Expired(Rows(), found.value, now)
        invariant found.Some? ==> forall k | k in jobs.Keys - rest && Expired(Rows(), k, now) ::
                                    ExpiryOf(Rows(), found.value) <= ExpiryOf(Rows(), k)
        invariant found.None? ==> forall k | k in jobs.Keys - rest :: !Expired(Rows(), k, now)
        decreases |rest|
      {
        var k :| k in rest;
        rest := rest - {k};
        var row := jobs[k];
        if Leased(row.status) && row.leaseExpiresAt.Some? && row.leaseExpiresAt.value < now {
          if found.None? || row.leaseExpiresAt.value < jobs[found.value].leaseExpiresAt.value { found := Some(k); }
        }
      }
    }

    /** The earliest expiries first, up to `limit`; fewer only when no expired lease is left. */
    method ReapExpired(now: int, limit: nat) returns (ids: seq<string>)
      requires Reachable(Rows())
      modifies this
      ensures Rows() == ReapAll(old(Rows()), ids, now)
      ensures |ids| <= limit && (|ids| < limit ==> forall k :: !Expired(Rows(), k, now))
      ensures forall id | id in ids :: Expired(old(Rows()), id, now) && !Expired(Rows(), id, now)
      ensures forall id, k | id in ids && Expired(Rows(), k, now) :: ExpiryOf(old(Rows()), id) <= ExpiryOf(Rows(), k)
    {
      ids := [];
      while |ids| < limit
        invariant Reachable(Rows()) && |ids| <= limit && Rows() == ReapAll(old(Rows()), ids, now)
        invariant Reaped(old(Rows()), Rows(), ids, now)
      {
        var found := FindExpired(now);
        if found.None? { break; }
        ghost var before := Rows();
        OneReap(before, found.value, now);
        var reaped := ReapOne(found.value, now);
        ids := ids + [found.value];
        assert ids[..|ids| - 1] + [found.value] == ids;
      }
    }

    method ReapOne(id: string, now: int) returns (r: Outcome<()>)
      requires Expired(Rows(), id, now)
      modifies this
      ensures Answers(ReapSpec(old(Rows()), id, now), old(Rows()), Rows(), r)
    {
      var row := jobs[id];
      var from, worker := row.status, row.claimedBy;
      row := RequeueOrDeadLetter(row, now, LeaseExpired);
      var entry := Transition(row.id, Some(from), row.status, row.attempt, now, worker, Some(LeaseExpired));
      r := Flush(id, row, Some(entry));
    }
  }
}
