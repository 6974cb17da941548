/** What every run of the queue's verbs keeps. */
module JobQueueLaws {
  import opened Basics
  import opened JobQueue

  datatype Verb =
    | Enqueue(j: Job, now: int)
    | Claim(id: string, worker: string, capabilities: set<string>, leaseSeconds: int, now: int, token: string)
    | Start(id: string, token: string, now: int)
    | Heartbeat(id: string, token: string, leaseSeconds: int, now: int)
    | Complete(id: string, token: string, result: Option<string>, now: int)
    | Fail(id: string, token: string, error: ErrorClass, retryable: bool, now: int)
    | RequestCancel(id: string, now: int)
    | Reap(id: string, now: int)
    | Retry(id: string, now: int)

  /** A verb on the tables. Claims pick a best claimable row and mint a token never seen before. */
  function Call(s: Tables, verb: Verb): Outcome<Tables> {
    match verb
    case Enqueue(j, now) => EnqueueSpec(s, j, now)
    case Claim(id, worker, capabilities, leaseSeconds, now, token) =>
      if !Best(s, id, capabilities, now) || token in s.minted then Err(Lookup)
      else ClaimSpec(s, id, worker, leaseSeconds, now, token)
    case Start(id, token, now) => StartSpec(s, id, token, now)
    case Heartbeat(id, token, leaseSeconds, now) => HeartbeatSpec(s, id, token, leaseSeconds, now)
    case Complete(id, token, result, now) => CompleteSpec(s, id, token, result, now)
    case Fail(id, token, error, retryable, now) => FailSpec(s, id, token, error, retryable, now)
    case RequestCancel(id, now) => CancelSpec(s, id, now)
    case Reap(id, now) => ReapSpec(s, id, now)
    case Retry(id, now) => RetrySpec(s, id, now)
  }

  /** A refused verb rolls back. */
  function After(s: Tables, verb: Verb): Tables {
    match Call(s, verb) case Ok(s') => s' case Err(_) => s
  }

  function Run(s: Tables, verbs: seq<Verb>): Tables
    decreases |verbs|
  {
    if verbs == [] then s else Run(After(s, verbs[0]), verbs[1..])
  }

  const EMPTY := Tables(map[], [], {})

  // ---------------------------------------------------------------------------
  // One row.

  /** All CHECKs, and what they do not say: a queued row has budget left and no cancel pending, only a leased
      row has a token, and a row carries an error class exactly when an earlier attempt of its budget failed. */
  predicate RowOk(j: Job) {
    && Checks(j)
    && (!Leased(j.status) ==> j.claimedBy.None? && j.leaseToken.None? && j.leaseExpiresAt.None? && j.heartbeatAt.None?)
    && (Leased(j.status) || j.status.Succeeded? ==> j.attempt >= 1 && (j.errorClass.Some? <==> j.attempt >= 2))
    && (j.status.Queued? ==>
          && j.attempt < j.maxAttempts && j.cancelRequestedAt.None? && j.startedAt.None?
          && (j.errorClass.Some? <==> j.attempt >= 1))
    && (j.status.DeadLetter? ==> j.attempt == j.maxAttempts && j.cancelRequestedAt.None? && j.startedAt.None?)
  }

  /** What is left: a claim spends an attempt, and an attempt is at most three status changes. */
  function Measure(j: Job): int {
    match j.status
    case Queued => 3 * (j.maxAttempts - j.attempt)
    case Claimed => 3 * (j.maxAttempts - j.attempt) + 2
    case Running => 3 * (j.maxAttempts - j.attempt) + 1
    case _ => 0
  }

  /** A step of one row that the guard accepts and that, unless it is the operator's requeue, uses up measure. */
  predicate GoodMove(j: Job, j': Job) {
    && Guard(j, j') && Legal(j.status, j'.status) && RowOk(j') && j'.maxAttempts == j.maxAttempts
    && (j.status.DeadLetter? || Measure(j') < Measure(j))
  }

  lemma TakeGood(j: Job, worker: string, leaseSeconds: int, now: int, token: string, capabilities: set<string>)
    requires RowOk(j) && Claimable(j, capabilities, now)
    ensures GoodMove(j, TakenBy(j, worker, leaseSeconds, now, token))
  {}

  lemma RequeueGood(j: Job, now: int, error: ErrorClass)
    requires RowOk(j) && Leased(j.status)
    ensures GoodMove(j, RequeueOrDeadLetter(j, now, error))
  {
    if j.cancelRequestedAt.Some? {
      FinishGood(j, Cancelled, now, Some(error));
    } else if j.attempt >= j.maxAttempts {
      DeadLetterGood(j, now, error);
    } else {
      RequeuedGood(j, now + Backoff(j), error);
    }
  }

  lemma DeadLetterGood(j: Job, now: int, error: ErrorClass)
    requires RowOk(j) && Leased(j.status) && j.attempt >= j.maxAttempts && j.cancelRequestedAt.None?
    ensures GoodMove(j, Finish(j, DeadLetter, now, Some(error)).(startedAt := None))
  {}

  lemma RequeuedGood(j: Job, at: int, error: ErrorClass)
    requires RowOk(j) && Leased(j.status) && j.attempt < j.maxAttempts && j.cancelRequestedAt.None?
    ensures GoodMove(j, ClearLease(j).(status := Queued, availableAt := at, errorClass := Some(error),
        startedAt := None))
  {}

  lemma FinishGood(j: Job, status: Status, now: int, error: Option<ErrorClass>)
    requires RowOk(j) && Leased(j.status) && Legal(j.status, status) && Terminal(status) && !status.DeadLetter?
    requires status.Failed? ==> error.Some?
    requires status.Succeeded? ==> error == j.errorClass
    ensures GoodMove(j, Finish(j, status, now, error))
  {}

  lemma StartGood(j: Job, now: int)
    requires RowOk(j) && j.status.Claimed?
    ensures GoodMove(j, j.(status := Running, startedAt := Some(now)))
  {}

  lemma CancelGood(j: Job, now: int)
    requires RowOk(j) && j.status.Queued?
    ensures GoodMove(j, j.(cancelRequestedAt := Some(now)).(status := Cancelled, finishedAt := Some(now)))
  {}

  lemma RetryGood(j: Job, now: int)
    requires RowOk(j) && j.status.DeadLetter?
    ensures GoodMove(j, Retried(j, now))
  {}

  /** An update of a leased row that changes neither its status nor its token nor its attempts. */
  predicate GoodUpdate(j: Job, j': Job) {
    && Guard(j, j') && RowOk(j') && j'.status == j.status && j'.leaseToken == j.leaseToken
    && j'.maxAttempts == j.maxAttempts && j'.attempt == j.attempt
  }

  lemma LeasedUpdates(j: Job, expires: int, now: int)
    requires RowOk(j) && Leased(j.status)
    ensures GoodUpdate(j, j.(leaseExpiresAt := Some(expires), heartbeatAt := Some(now)))
    ensures GoodUpdate(j, j.(cancelRequestedAt := Some(now)))
  {}

  // ---------------------------------------------------------------------------
  // The history of one job.

  function History(log: seq<Transition>, id: string): seq<Transition>
    decreases |log|
  {
    if log == [] then []
    else
      var n := |log| - 1;
      History(log[..n], id) + (if log[n].job == id then [log[n]] else [])
  }

  lemma HistoryAppend(log: seq<Transition>, t: Transition, id: string)
    ensures History(log + [t], id) == History(log, id) + (if t.job == id then [t] else [])
  {
    assert (log + [t])[..|log|] == log;
  }

  /** The entries chain from the enqueue to the row's status, each one a legal change. */
  predicate Chains(h: seq<Transition>, status: Status) {
    && h != [] && h[0].from == None && h[0].to == Queued && h[|h| - 1].to == status
    && forall i | 1 <= i < |h| :: h[i].from == Some(h[i - 1].to) && Legal(h[i - 1].to, h[i].to)
  }

  /** The operator's requeues. */
  function Requeues(h: seq<Transition>): nat
    decreases |h|
  {
    if h == [] then 0
    else
      var n := |h| - 1;
      Requeues(h[..n]) + (if h[n].from == Some(DeadLetter) then 1 else 0)
  }

  /** Three changes for each attempt of the first budget, and one more for each requeue and its new budget. */
  function Budget(requeues: nat, maxAttempts: int): int {
    if requeues == 0 then 3 * maxAttempts else Budget(requeues - 1, maxAttempts) + 3 * maxAttempts + 1
  }

  /** Status changes so far, plus those still possible, stay within the budgets handed out. */
  ghost predicate WithinBudget(h: seq<Transition>, j: Job) {
    |h| - 1 + Measure(j) <= Budget(Requeues(h), j.maxAttempts)
  }

  ghost predicate Recorded(log: seq<Transition>, j: Job) {
    Chains(History(log, j.id), j.status) && WithinBudget(History(log, j.id), j)
  }

  lemma EntryRecorded(log: seq<Transition>, j: Job, j': Job, t: Transition)
    requires Recorded(log, j) && GoodMove(j, j')
    requires t.job == j.id && t.from == Some(j.status) && t.to == j'.status
    ensures Recorded(log + [t], j')
  {
    HistoryAppend(log, t, j.id);
    EntryChains(History(log, j.id), j, j', t);
    EntryBudget(History(log, j.id), j, j', t);
  }

  lemma EntryChains(h: seq<Transition>, j: Job, j': Job, t: Transition)
    requires Chains(h, j.status) && Legal(j.status, j'.status) && t.from == Some(j.status) && t.to == j'.status
    ensures Chains(h + [t], j'.status)
  {}

  lemma EntryBudget(h: seq<Transition>, j: Job, j': Job, t: Transition)
    requires WithinBudget(h, j) && GoodMove(j, j') && t.from == Some(j.status)
    ensures WithinBudget(h + [t], j')
  {
    assert (h + [t])[..|h|] == h;
  }

  // ---------------------------------------------------------------------------
  // All rows.

  ghost predicate RowsOk(s: Tables) { forall id | id in s.jobs :: s.jobs[id].id == id && RowOk(s.jobs[id]) }

  ghost predicate TokensApart(s: Tables) {
    && (forall id | id in s.jobs && s.jobs[id].leaseToken.Some? :: s.jobs[id].leaseToken.value in s.minted)
    && (forall a, b | a in s.jobs && b in s.jobs
                      && s.jobs[a].leaseToken.Some? && s.jobs[a].leaseToken == s.jobs[b].leaseToken ::
          a == b)
  }

  ghost predicate KeysApart(s: Tables) {
    forall a, b | a in s.jobs && b in s.jobs && s.jobs[a].key == s.jobs[b].key :: a == b
  }

  ghost predicate LogOk(s: Tables) { AllRecorded(s.jobs, s.log) && LogNames(s.log, s.jobs.Keys) }

  ghost predicate AllRecorded(jobs: map<string, Job>, log: seq<Transition>) {
    forall id | id in jobs :: Recorded(log, jobs[id])
  }

  ghost predicate LogNames(log: seq<Transition>, ids: set<string>) { forall t | t in log :: t.job in ids }

  ghost predicate Inv(s: Tables) { RowsOk(s) && TokensApart(s) && KeysApart(s) && LogOk(s) }

  /** The new row keeps its token, drops it, or takes a freshly minted one. */
  predicate TokenStep(s: Tables, id: string, j: Job, minted: set<string>)
    requires id in s.jobs
  {
    && s.minted <= minted
    && (j.leaseToken.Some? ==>
          j.leaseToken == s.jobs[id].leaseToken || (j.leaseToken.value in minted && j.leaseToken.value !in s.minted))
  }

  lemma TokensAfter(s: Tables, id: string, j: Job, minted: set<string>)
    requires TokensApart(s) && id in s.jobs && TokenStep(s, id, j, minted)
    ensures TokensApart(s.(jobs := s.jobs[id := j], minted := minted))
  {}

  lemma RowsAfter(s: Tables, id: string, j: Job)
    requires RowsOk(s) && KeysApart(s) && id in s.jobs && Guard(s.jobs[id], j) && RowOk(j)
    ensures RowsOk(s.(jobs := s.jobs[id := j])) && KeysApart(s.(jobs := s.jobs[id := j]))
  {}

  lemma LogAfterMove(s: Tables, id: string, j: Job, t: Transition)
    requires RowsOk(s) && LogOk(s) && id in s.jobs && GoodMove(s.jobs[id], j)
    requires t.job == id && t.from == Some(s.jobs[id].status) && t.to == j.status
    ensures LogOk(s.(jobs := s.jobs[id := j], log := s.log + [t]))
  {
    assert Recorded(s.log, s.jobs[id]);
    EntryRecorded(s.log, s.jobs[id], j, t);
    var jobs, log := s.jobs[id := j], s.log + [t];
    forall k | k in jobs ensures Recorded(log, jobs[k]) {
      if k != id { OtherRecorded(s.log, s.jobs[k], t); }
    }
    assert jobs.Keys == s.jobs.Keys;
    assert LogNames(log, jobs.Keys);
  }

  lemma OtherRecorded(log: seq<Transition>, j: Job, t: Transition)
    requires Recorded(log, j) && t.job != j.id
    ensures Recorded(log + [t], j)
  {
    HistoryAppend(log, t, j.id);
    assert History(log + [t], j.id) == History(log, j.id);
  }

  /** A good move is accepted by the database, and keeps everything. */
  lemma MoveInv(s: Tables, id: string, j: Job, minted: set<string>, now: int, worker: Option<string>,
      error: Option<ErrorClass>)
    requires Inv(s) && id in s.jobs && GoodMove(s.jobs[id], j) && TokenStep(s, id, j, minted)
    ensures Move(s.(minted := minted), id, j, now, worker, error).Ok?
    ensures Inv(Move(s.(minted := minted), id, j, now, worker, error).value)
  {
    var t := Entry(s.jobs[id], j, now, worker, error);
    var s' := s.(jobs := s.jobs[id := j], log := s.log + [t], minted := minted);
    assert Move(s.(minted := minted), id, j, now, worker, error) == Ok(s');
    TokensAfter(s, id, j, minted);
    RowsAfter(s, id, j);
    LogAfterMove(s, id, j, t);
  }

  lemma UpdateInv(s: Tables, id: string, j: Job)
    requires Inv(s) && id in s.jobs && GoodUpdate(s.jobs[id], j)
    ensures Update(s, id, j).Ok? && Inv(Update(s, id, j).value)
  {
    TokensAfter(s, id, j, s.minted);
    RowsAfter(s, id, j);
    LogAfterUpdate(s, id, j);
    var s' := s.(jobs := s.jobs[id := j]);
    assert s.(jobs := s.jobs[id := j], minted := s.minted) == s';
    assert Update(s, id, j) == Ok(s');
  }

  lemma LogAfterUpdate(s: Tables, id: string, j: Job)
    requires RowsOk(s) && LogOk(s) && id in s.jobs && GoodUpdate(s.jobs[id], j)
    ensures LogOk(s.(jobs := s.jobs[id := j]))
  {
    var jobs := s.jobs[id := j];
    assert jobs.Keys == s.jobs.Keys;
    forall k | k in jobs ensures Recorded(s.log, jobs[k]) { assert Recorded(s.log, s.jobs[k]); }
  }

  lemma EnqueueInv(s: Tables, j: Job, now: int)
    requires Inv(s) && EnqueueSpec(s, j, now).Ok?
    ensures Inv(EnqueueSpec(s, j, now).value)
  {
    EnqueueRows(s, j, now);
    EnqueueLog(s, j, now);
  }

  lemma EnqueueRows(s: Tables, j: Job, now: int)
    requires Inv(s) && EnqueueSpec(s, j, now).Ok?
    ensures
      var s' := EnqueueSpec(s, j, now).value;
      RowsOk(s') && TokensApart(s') && KeysApart(s')
  {
    var s' := EnqueueSpec(s, j, now).value;
    forall k | k in s.jobs ensures s.jobs[k].key != j.key { assert !KeyTaken(s, j.key); }
  }

  lemma EnqueueLog(s: Tables, j: Job, now: int)
    requires RowsOk(s) && LogOk(s) && EnqueueSpec(s, j, now).Ok?
    ensures LogOk(EnqueueSpec(s, j, now).value)
  {
    var s' := EnqueueSpec(s, j, now).value;
    var t := Transition(j.id, None, Queued, 0, now, None, None);
    FirstRecorded(s.log, s'.jobs[j.id], t);
    forall k | k in s'.jobs ensures Recorded(s'.log, s'.jobs[k]) {
      if k != j.id {
        assert Recorded(s.log, s.jobs[k]);
        OtherRecorded(s.log, s.jobs[k], t);
      }
    }
  }

  lemma FirstRecorded(log: seq<Transition>, j: Job, t: Transition)
    requires forall u | u in log :: u.job != j.id
    requires t.job == j.id && t.from.None? && t.to == Queued == j.status && j.attempt == 0
    ensures Recorded(log + [t], j)
  {
    NoHistory(log, j.id);
    HistoryAppend(log, t, j.id);
    assert [t][..0] == [];
  }

  lemma {:induction false} NoHistory(log: seq<Transition>, id: string)
    requires forall t | t in log :: t.job != id
    ensures History(log, id) == []
    decreases |log|
  {
    if log != [] { NoHistory(log[..|log| - 1], id); }
  }

  // ---------------------------------------------------------------------------
  // Every verb.

  lemma ClaimInv(s: Tables, id: string, worker: string, capabilities: set<string>, leaseSeconds: int, now: int,
      token: string)
    requires Inv(s) && Best(s, id, capabilities, now) && token !in s.minted
    ensures ClaimSpec(s, id, worker, leaseSeconds, now, token).Ok?
    ensures Inv(ClaimSpec(s, id, worker, leaseSeconds, now, token).value)
  {
    TakeGood(s.jobs[id], worker, leaseSeconds, now, token, capabilities);
    MoveInv(s, id, TakenBy(s.jobs[id], worker, leaseSeconds, now, token), s.minted + {token}, now, Some(worker), None);
  }

  /** The database never refuses what a verb writes, except an enqueue's duplicate or malformed row. */
  ghost predicate Refused(s: Tables, verb: Verb) { Call(s, verb) == Err(Integrity) && !verb.Enqueue? }

  lemma MoveKeeps(s: Tables, id: string, j: Job, now: int, worker: Option<string>, error: Option<ErrorClass>)
    requires Inv(s) && id in s.jobs && GoodMove(s.jobs[id], j) && TokenStep(s, id, j, s.minted)
    ensures Move(s, id, j, now, worker, error).Ok? && Inv(Move(s, id, j, now, worker, error).value)
  {
    assert s.(minted := s.minted) == s;
    MoveInv(s, id, j, s.minted, now, worker, error);
  }

  lemma StartInv(s: Tables, id: string, token: string, now: int)
    requires Inv(s)
    ensures var r := StartSpec(s, id, token, now); r != Err(Integrity) && (r.Ok? ==> Inv(r.value))
  {
    if Holds(s, id, token) && s.jobs[id].status == Claimed {
      var j := s.jobs[id].(status := Running, startedAt := Some(now));
      StartGood(s.jobs[id], now);
      MoveKeeps(s, id, j, now, j.claimedBy, None);
    }
  }

  lemma HeartbeatInv(s: Tables, id: string, token: string, leaseSeconds: int, now: int)
    requires Inv(s)
    ensures var r := HeartbeatSpec(s, id, token, leaseSeconds, now); r != Err(Integrity) && (r.Ok? ==> Inv(r.value))
  {
    if Holds(s, id, token) {
      LeasedUpdates(s.jobs[id], now + leaseSeconds, now);
      UpdateInv(s, id, s.jobs[id].(leaseExpiresAt := Some(now + leaseSeconds), heartbeatAt := Some(now)));
    }
  }

  lemma CompleteInv(s: Tables, id: string, token: string, result: Option<string>, now: int)
    requires Inv(s)
    ensures var r := CompleteSpec(s, id, token, result, now); r != Err(Integrity) && (r.Ok? ==> Inv(r.value))
  {
    if Holds(s, id, token) && s.jobs[id].status == Running {
      assert RowOk(s.jobs[id]);
      FinishGood(s.jobs[id], Succeeded, now, s.jobs[id].errorClass);
      MoveKeeps(s, id, Finish(s.jobs[id], Succeeded, now, s.jobs[id].errorClass).(result := result), now,
                s.jobs[id].claimedBy, None);
    }
  }

  lemma FailInv(s: Tables, id: string, token: string, error: ErrorClass, retryable: bool, now: int)
    requires Inv(s)
    ensures var r := FailSpec(s, id, token, error, retryable, now); r != Err(Integrity) && (r.Ok? ==> Inv(r.value))
  {
    if Holds(s, id, token) {
      var j := s.jobs[id];
      assert RowOk(j);
      if (error.Stopped? && Leased(j.status)) || (!error.Stopped? && j.status == Running) {
        EndedGood(j, error, retryable, now);
        MoveKeeps(s, id, Ended(j, error, retryable, now), now, j.claimedBy, Some(error));
      }
    }
  }

  /** The row a failure leaves. */
  function Ended(j: Job, error: ErrorClass, retryable: bool, now: int): Job {
    if error.Stopped? then Finish(j, Cancelled, now, Some(error))
    else if retryable then RequeueOrDeadLetter(j, now, error)
    else Finish(j, Failed, now, Some(error))
  }

  lemma EndedGood(j: Job, error: ErrorClass, retryable: bool, now: int)
    requires RowOk(j) && (if error.Stopped? then Leased(j.status) else j.status == Running)
    ensures GoodMove(j, Ended(j, error, retryable, now))
  {
    if error.Stopped? { FinishGood(j, Cancelled, now, Some(error)); }
    else if retryable { RequeueGood(j, now, error); }
    else { FinishGood(j, Failed, now, Some(error)); }
  }

  lemma CancelInv(s: Tables, id: string, now: int)
    requires Inv(s)
    ensures var r := CancelSpec(s, id, now); r != Err(Integrity) && (r.Ok? ==> Inv(r.value))
  {
    if id in s.jobs && !Terminal(s.jobs[id].status) {
      var j := s.jobs[id].(cancelRequestedAt := Some(now));
      if j.status.Queued? {
        CancelGood(s.jobs[id], now);
        MoveKeeps(s, id, j.(status := Cancelled, finishedAt := Some(now)), now, None, None);
      } else {
        LeasedUpdates(s.jobs[id], 0, now);
        UpdateInv(s, id, j);
      }
    }
  }

  lemma ReapInv(s: Tables, id: string, now: int)
    requires Inv(s)
    ensures var r := ReapSpec(s, id, now); r != Err(Integrity) && (r.Ok? ==> Inv(r.value))
  {
    if Expired(s, id, now) {
      assert RowOk(s.jobs[id]);
      RequeueGood(s.jobs[id], now, LeaseExpired);
      MoveKeeps(s, id, RequeueOrDeadLetter(s.jobs[id], now, LeaseExpired), now, s.jobs[id].claimedBy,
          Some(LeaseExpired));
    }
  }

  lemma RetryInv(s: Tables, id: string, now: int)
    requires Inv(s)
    ensures var r := RetrySpec(s, id, now); r != Err(Integrity) && (r.Ok? ==> Inv(r.value))
  {
    if id in s.jobs && s.jobs[id].status == DeadLetter {
      RetryGood(s.jobs[id], now);
      MoveKeeps(s, id, Retried(s.jobs[id], now), now, None, None);
    }
  }

  /** No verb is ever refused by the guard or a CHECK, whatever its arguments, and every verb keeps Inv. */
  lemma StepInv(s: Tables, verb: Verb)
    requires Inv(s)
    ensures Inv(After(s, verb)) && !Refused(s, verb)
  {
    match verb
    case Enqueue(j, now) => if EnqueueSpec(s, j, now).Ok? { EnqueueInv(s, j, now); }
    case Claim(id, worker, capabilities, leaseSeconds, now, token) =>
      if Best(s, id, capabilities, now) && token !in s.minted {
        ClaimInv(s, id, worker, capabilities, leaseSeconds, now, token);
      }
    case Start(id, token, now) => StartInv(s, id, token, now);
    case Heartbeat(id, token, leaseSeconds, now) => HeartbeatInv(s, id, token, leaseSeconds, now);
    case Complete(id, token, result, now) => CompleteInv(s, id, token, result, now);
    case Fail(id, token, error, retryable, now) => FailInv(s, id, token, error, retryable, now);
    case RequestCancel(id, now) => CancelInv(s, id, now);
    case Reap(id, now) => ReapInv(s, id, now);
    case Retry(id, now) => RetryInv(s, id, now);
  }

  lemma {:induction false} RunInv(s: Tables, verbs: seq<Verb>)
    requires Inv(s)
    ensures Inv(Run(s, verbs))
    decreases |verbs|
  {
    if verbs != [] {
      StepInv(s, verbs[0]);
      RunInv(After(s, verbs[0]), verbs[1..]);
    }
  }

  // ---------------------------------------------------------------------------
  // Main results.

  /** In every reachable state: all CHECKs and the stronger row rules hold, keys and live fences are unique, and
      each job's history chains from its enqueue to its status within the budgets it was given. */
  lemma EveryRun(verbs: seq<Verb>, id: string)
    ensures
      var s := Run(EMPTY, verbs);
      id in s.jobs ==>
        var j := s.jobs[id];
        var h := History(s.log, id);
        && RowOk(j) && Chains(h, j.status)
        && (j.status.Queued? ==> j.attempt < j.maxAttempts && j.cancelRequestedAt.None?)
        && |h| - 1 <= Budget(Requeues(h), j.maxAttempts)
  {
    RunInv(EMPTY, verbs);
    var s := Run(EMPTY, verbs);
    if id in s.jobs { assert Recorded(s.log, s.jobs[id]); }
  }

  /** A job that was never requeued by an operator made at most three status changes per attempt. */
  lemma AtMostThreePerAttempt(verbs: seq<Verb>, id: string)
    ensures
      var s := Run(EMPTY, verbs);
      id in s.jobs && Requeues(History(s.log, id)) == 0 ==>
        |History(s.log, id)| - 1 <= 3 * s.jobs[id].maxAttempts - Measure(s.jobs[id])
  {
    RunInv(EMPTY, verbs);
    var s := Run(EMPTY, verbs);
    if id in s.jobs { assert Recorded(s.log, s.jobs[id]); }
  }

  predicate Fenced(verb: Verb) { verb.Start? || verb.Heartbeat? || verb.Complete? || verb.Fail? }

  /** What a verb may do to one row's fence and to a pending cancel; `minted` is the fence a claim hands out. */
  predicate RowStep(j: Job, j': Job, minted: Option<string>) {
    && (j'.leaseToken.Some? ==> j'.leaseToken == j.leaseToken || j'.leaseToken == minted)
    && (DoomedRow(j) ==> DoomedRow(j') && Leased(j.status))
  }

  predicate DoomedRow(j: Job) { j.cancelRequestedAt.Some? && !j.status.Queued? && !j.status.DeadLetter? }

  predicate Shape(s: Tables, s': Tables, k: string, minted: Option<string>) {
    && s.minted <= s'.minted && (minted.Some? ==> minted.value !in s.minted)
    && (forall id | id in s.jobs && id != k :: id in s'.jobs && s'.jobs[id] == s.jobs[id])
    && (forall id | id in s'.jobs && id != k :: id in s.jobs)
    && (k in s.jobs ==> k in s'.jobs && (s'.jobs[k] == s.jobs[k] || RowStep(s.jobs[k], s'.jobs[k], minted)))
    && (k in s'.jobs && k !in s.jobs ==> s'.jobs[k].leaseToken.None?)
  }

  lemma MoveShape(s: Tables, k: string, j: Job, now: int, worker: Option<string>, error: Option<ErrorClass>)
    requires k in s.jobs && RowStep(s.jobs[k], j, None)
    ensures var r := Move(s, k, j, now, worker, error); r.Ok? ==> Shape(s, r.value, k, None)
    ensures var r := Update(s, k, j); r.Ok? ==> Shape(s, r.value, k, None)
  {}

  lemma TakeShape(s: Tables, id: string, worker: string, leaseSeconds: int, now: int, token: string)
    requires id in s.jobs && s.jobs[id].status.Queued? && token !in s.minted
    ensures var r := ClaimSpec(s, id, worker, leaseSeconds, now, token); r.Ok? ==> Shape(s, r.value, id, Some(token))
  {
    assert RowStep(s.jobs[id], TakenBy(s.jobs[id], worker, leaseSeconds, now, token), Some(token));
  }

  lemma FailShape(s: Tables, id: string, token: string, error: ErrorClass, retryable: bool, now: int)
    requires Holds(s, id, token)
    ensures var r := FailSpec(s, id, token, error, retryable, now); r.Ok? ==> Shape(s, r.value, id, None)
  {
    var j := s.jobs[id];
    if error.Stopped? {
      if Leased(j.status) { MoveShape(s, id, Finish(j, Cancelled, now, Some(error)), now, j.claimedBy, Some(error)); }
    } else if j.status.Running? {
      var next := if retryable then RequeueOrDeadLetter(j, now, error) else Finish(j, Failed, now, Some(error));
      MoveShape(s, id, next, now, j.claimedBy, Some(error));
    }
  }

  lemma HeartbeatShape(s: Tables, id: string, token: string, leaseSeconds: int, now: int)
    requires Holds(s, id, token) && RowOk(s.jobs[id])
    ensures var r := HeartbeatSpec(s, id, token, leaseSeconds, now); r.Ok? ==> Shape(s, r.value, id, None)
  {
    MoveShape(s, id, s.jobs[id].(leaseExpiresAt := Some(now + leaseSeconds), heartbeatAt := Some(now)), now, None,
        None);
  }

  lemma CancelShape(s: Tables, id: string, now: int)
    requires id in s.jobs && !Terminal(s.jobs[id].status)
    ensures var r := CancelSpec(s, id, now); r.Ok? ==> Shape(s, r.value, id, None)
  {
    var j := s.jobs[id].(cancelRequestedAt := Some(now));
    if j.status.Queued? { MoveShape(s, id, j.(status := Cancelled, finishedAt := Some(now)), now, None, None); }
    else { MoveShape(s, id, j, now, None, None); }
  }

  lemma CompleteShape(s: Tables, id: string, token: string, result: Option<string>, now: int)
    requires Holds(s, id, token) && s.jobs[id].status == Running
    ensures var r := CompleteSpec(s, id, token, result, now); r.Ok? ==> Shape(s, r.value, id, None)
  {
    MoveShape(s, id, Finish(s.jobs[id], Succeeded, now, s.jobs[id].errorClass).(result := result), now,
              s.jobs[id].claimedBy, None);
  }

  lemma StartShape(s: Tables, id: string, token: string, now: int)
    ensures var r := StartSpec(s, id, token, now); r.Ok? ==> Shape(s, r.value, id, None)
  {
    if Holds(s, id, token) && s.jobs[id].status == Claimed {
      MoveShape(s, id, s.jobs[id].(status := Running, startedAt := Some(now)), now, s.jobs[id].claimedBy, None);
    }
  }

  lemma ReapShape(s: Tables, id: string, now: int)
    ensures var r := ReapSpec(s, id, now); r.Ok? ==> Shape(s, r.value, id, None)
  {
    if Expired(s, id, now) {
      MoveShape(s, id, RequeueOrDeadLetter(s.jobs[id], now, LeaseExpired), now, s.jobs[id].claimedBy,
          Some(LeaseExpired));
    }
  }

  lemma RetryShape(s: Tables, id: string, now: int)
    ensures var r := RetrySpec(s, id, now); r.Ok? ==> Shape(s, r.value, id, None)
  {
    if id in s.jobs && s.jobs[id].status == DeadLetter { MoveShape(s, id, Retried(s.jobs[id], now), now, None, None); }
  }

  function Target(verb: Verb): string { if verb.Enqueue? then verb.j.id else verb.id }

  function Minting(verb: Verb): Option<string> { if verb.Claim? then Some(verb.token) else None }

  lemma StepShape(s: Tables, verb: Verb)
    requires Inv(s) && Call(s, verb).Ok?
    ensures Shape(s, After(s, verb), Target(verb), Minting(verb))
  {
    match verb
    case Enqueue(j, now) =>
    case Claim(id, worker, _, leaseSeconds, now, token) => TakeShape(s, id, worker, leaseSeconds, now, token);
    case Start(id, token, now) => StartShape(s, id, token, now);
    case Heartbeat(id, token, leaseSeconds, now) => HeartbeatShape(s, id, token, leaseSeconds, now);
    case Complete(id, token, result, now) => CompleteShape(s, id, token, result, now);
    case Fail(id, token, error, retryable, now) => FailShape(s, id, token, error, retryable, now);
    case RequestCancel(id, now) => CancelShape(s, id, now);
    case Reap(id, now) => ReapShape(s, id, now);
    case Retry(id, now) => RetryShape(s, id, now);
  }

  lemma TokenAfter(s: Tables, verb: Verb, id: string, token: string)
    requires Inv(s) && token in s.minted && !Holds(s, id, token)
    ensures token in After(s, verb).minted && !Holds(After(s, verb), id, token)
  {
    if Call(s, verb).Ok? {
      StepShape(s, verb);
      ShapeKeepsStale(s, After(s, verb), Target(verb), Minting(verb), id, token);
    }
  }

  lemma ShapeKeepsStale(s: Tables, s': Tables, k: string, minted: Option<string>, id: string, token: string)
    requires Shape(s, s', k, minted) && token in s.minted && !Holds(s, id, token)
    ensures token in s'.minted && !Holds(s', id, token)
  {}

  /** Once a fence is not the current one it never is again, whatever runs in between. */
  lemma {:induction false} StaleForever(s: Tables, verbs: seq<Verb>, id: string, token: string)
    requires Inv(s) && token in s.minted && !Holds(s, id, token)
    ensures !Holds(Run(s, verbs), id, token)
    decreases |verbs|
  {
    if verbs != [] {
      TokenAfter(s, verbs[0], id, token);
      StepInv(s, verbs[0]);
      StaleForever(After(s, verbs[0]), verbs[1..], id, token);
    }
  }

  lemma FencedRefused(s: Tables, verb: Verb)
    requires Fenced(verb) && !Holds(s, verb.id, verb.token)
    ensures Call(s, verb) == Err(Lookup) && After(s, verb) == s
  {}

  lemma ClaimHolds(s: Tables, claim: Verb)
    requires claim.Claim? && Call(s, claim).Ok?
    ensures Holds(After(s, claim), claim.id, claim.token)
    ensures claim.token !in s.minted && s.minted <= After(s, claim).minted
  {}

  /** After a newer claim of the job, every fenced verb bearing the older token is refused and changes nothing,
      at any later time. */
  lemma ZombieRefused(s: Tables, claim: Verb, verbs: seq<Verb>, late: Verb, old_: string)
    requires Inv(s) && claim.Claim? && Call(s, claim).Ok? && old_ in s.minted
    requires Fenced(late) && late.id == claim.id && late.token == old_
    ensures
      var s' := Run(After(s, claim), verbs);
      Call(s', late) == Err(Lookup) && After(s', late) == s'
  {
    StepInv(s, claim);
    ClaimHolds(s, claim);
    StaleForever(After(s, claim), verbs, claim.id, old_);
    FencedRefused(Run(After(s, claim), verbs), late);
  }

  predicate Doomed(s: Tables, id: string) { id in s.jobs && DoomedRow(s.jobs[id]) }

  lemma DoomedStep(s: Tables, verb: Verb, id: string)
    requires Inv(s) && Doomed(s, id)
    ensures Doomed(After(s, verb), id)
  {
    if Call(s, verb).Ok? {
      StepShape(s, verb);
      ShapeKeepsDoom(s, After(s, verb), Target(verb), Minting(verb), id);
    }
  }

  lemma ShapeKeepsDoom(s: Tables, s': Tables, k: string, minted: Option<string>, id: string)
    requires Shape(s, s', k, minted) && Doomed(s, id)
    ensures Doomed(s', id)
  {}

  /** A cancel requested while the job is leased is never lost: the job is never queued or dead-lettered again,
      so no later claim dispatches it. */
  lemma {:induction false} CancelSticks(s: Tables, verbs: seq<Verb>, id: string)
    requires Inv(s) && Doomed(s, id)
    ensures Doomed(Run(s, verbs), id)
    decreases |verbs|
  {
    if verbs != [] {
      DoomedStep(s, verbs[0], id);
      StepInv(s, verbs[0]);
      CancelSticks(After(s, verbs[0]), verbs[1..], id);
    }
  }

  lemma CancelDooms(s: Tables, id: string, now: int)
    requires Inv(s) && id in s.jobs && !Terminal(s.jobs[id].status)
    ensures CancelSpec(s, id, now).Ok? && Doomed(CancelSpec(s, id, now).value, id)
  {
    CancelInv(s, id, now);
    var j := s.jobs[id].(cancelRequestedAt := Some(now));
    var j' := if j.status.Queued? then j.(status := Cancelled, finishedAt := Some(now)) else j;
    assert DoomedRow(j');
    assert CancelSpec(s, id, now).value.jobs[id] == j';
  }

  lemma LogGrowsStep(s: Tables, verb: Verb)
    ensures s.log <= After(s, verb).log
  {}

  /** The history is append-only. */
  lemma {:induction false} LogGrows(s: Tables, verbs: seq<Verb>)
    ensures s.log <= Run(s, verbs).log
    decreases |verbs|
  {
    if verbs != [] {
      LogGrowsStep(s, verbs[0]);
      LogGrows(After(s, verbs[0]), verbs[1..]);
    }
  }

  /** A succeeded row carries an error class exactly when it needed more than one attempt: completing does not
      clear what an earlier attempt left. */
  lemma StaleErrorOnSuccess(verbs: seq<Verb>, id: string)
    ensures
      var s := Run(EMPTY, verbs);
      id in s.jobs && s.jobs[id].status.Succeeded? ==> (s.jobs[id].errorClass.Some? <==> s.jobs[id].attempt > 1)
  {
    RunInv(EMPTY, verbs);
    var s := Run(EMPTY, verbs);
    if id in s.jobs { assert RowOk(s.jobs[id]); }
  }

  lemma {:induction false} RunSnoc(s: Tables, verbs: seq<Verb>, verb: Verb)
    ensures Run(s, verbs + [verb]) == After(Run(s, verbs), verb)
    decreases |verbs|
  {
    if verbs == [] {
      assert verbs + [verb] == [verb];
      assert Run(After(s, verb), [verb][1..]) == After(s, verb);
    } else {
      assert (verbs + [verb])[1..] == verbs[1..] + [verb];
      RunSnoc(After(s, verbs[0]), verbs[1..], verb);
    }
  }

  /** Two attempts are allowed. */
  function Sample(): Job {
    Job("j", "build", "", "k", 0, 0, {}, 0, 2, 1, 0, Queued, None, None, None, None, None, None, None, None, None)
  }

  /** One more verb on the only row. */
  lemma OneMore(verbs: seq<Verb>, verb: Verb, before: Job, after: Job) returns (more: seq<Verb>)
    requires Run(EMPTY, verbs).jobs == map["j" := before]
    requires After(Run(EMPTY, verbs), verb).jobs == map["j" := before]["j" := after]
    ensures more == verbs + [verb] && Run(EMPTY, more).jobs == map["j" := after]
  {
    RunSnoc(EMPTY, verbs, verb);
    more := verbs + [verb];
  }

  function ClaimVerb(now: int, token: string): Verb { Claim("j", "w", {}, 10, now, token) }

  /** Claims and starts the queued job. */
  lemma Attempted(verbs: seq<Verb>, j: Job, now: int, token: string) returns (more: seq<Verb>)
    requires Run(EMPTY, verbs).jobs == map["j" := j] && token !in Run(EMPTY, verbs).minted
    requires RowOk(j) && j.id == "j" && j.status == Queued && j.availableAt <= now && j.required == {}
    ensures Run(EMPTY, more).jobs
         == map["j" := TakenBy(j, "w", 10, now, token).(status := Running, startedAt := Some(now))]
    ensures Run(EMPTY, more).minted == Run(EMPTY, verbs).minted + {token}
  {
    var claimed := TakenBy(j, "w", 10, now, token);
    assert Best(Run(EMPTY, verbs), "j", {}, now);
    more := OneMore(verbs, ClaimVerb(now, token), j, claimed);
    RunSnoc(EMPTY, verbs, ClaimVerb(now, token));
    var running := claimed.(status := Running, startedAt := Some(now));
    var half := more;
    more := OneMore(half, Start("j", token, now), claimed, running);
    RunSnoc(EMPTY, half, Start("j", token, now));
  }

  function Requeued(): Job {
    RequeueOrDeadLetter(TakenBy(Sample(), "w", 10, 0, "t1").(status := Running, startedAt := Some(0)), 0, Transient)
  }

  lemma FirstAttemptFails() returns (verbs: seq<Verb>)
    ensures Run(EMPTY, verbs).jobs == map["j" := Requeued()] && Run(EMPTY, verbs).minted == {"t1"} && RowOk(Requeued())
  {
    verbs := RunOfOne();
    verbs := Attempted(verbs, Sample(), 0, "t1");
    var first := TakenBy(Sample(), "w", 10, 0, "t1").(status := Running, startedAt := Some(0));
    var before := verbs;
    verbs := OneMore(before, Fail("j", "t1", Transient, true, 0), first, Requeued());
    RunSnoc(EMPTY, before, Fail("j", "t1", Transient, true, 0));
  }

  /** A run that does leave the error of the first attempt on a succeeded row. */
  lemma ErrorOutlivesSuccess() returns (verbs: seq<Verb>)
    ensures
      var s := Run(EMPTY, verbs);
      && "j" in s.jobs && s.jobs["j"].status.Succeeded? && s.jobs["j"].attempt == 2
      && s.jobs["j"].errorClass == Some(Transient)
  {
    assert Run(EMPTY, []) == EMPTY;
    verbs := FirstAttemptFails();
    verbs := Attempted(verbs, Requeued(), 1, "t2");
    var second := TakenBy(Requeued(), "w", 10, 1, "t2").(status := Running, startedAt := Some(1));
    var done := Finish(second, Succeeded, 2, second.errorClass).(result := None);
    verbs := OneMore(verbs, Complete("j", "t2", None, 2), second, done);
  }

  lemma RunOfOne() returns (verbs: seq<Verb>)
    ensures Run(EMPTY, verbs).jobs == map["j" := Sample()] && Run(EMPTY, verbs).minted == {} && RowOk(Sample())
  {
    assert Run(EMPTY, []) == EMPTY;
    verbs := [Enqueue(Sample(), 0)];
    assert "k"[0] == 'k' && !Blank("k");
    assert Run(EMPTY, verbs) == Run(After(EMPTY, verbs[0]), []);
  }

  /** Delays start at the base, double with each attempt spent, and stop at the cap. */
  lemma BackoffDoubles(j: Job)
    requires j.backoffBase >= 1 && j.attempt >= 1
    ensures 1 <= Backoff(j) <= MAX_BACKOFF_SECONDS
    ensures j.attempt == 1 && j.backoffBase <= MAX_BACKOFF_SECONDS ==> Backoff(j) == j.backoffBase
    ensures
      var next := Backoff(j.(attempt := j.attempt + 1));
      next == if 2 * Backoff(j) < MAX_BACKOFF_SECONDS then 2 * Backoff(j) else MAX_BACKOFF_SECONDS
  {
    var n := j.attempt - 1;
    DelayDoubles(j.backoffBase, n);
    assert j.backoffBase * Power2(n) >= 1;
  }

  lemma DelayDoubles(base: int, n: nat)
    ensures base * Power2(n + 1) == 2 * (base * Power2(n))
    ensures base >= 1 ==> base * Power2(n) >= 1
  {
    var p := Power2(n);
    assert base * (2 * p) == 2 * (base * p);
    if base >= 1 { assert base * p >= p by { assert base * p == (base - 1) * p + p; } }
  }

  ghost predicate LeasedUntil(s: Tables, id: string, expiry: int) {
    id in s.jobs && Leased(s.jobs[id].status) && s.jobs[id].leaseExpiresAt == Some(expiry)
  }

  /** The sweeper takes a job exactly when its lease has run out, and is never refused. */
  lemma ReapsExactlyExpired(s: Tables, id: string, now: int)
    requires Inv(s)
    ensures ReapSpec(s, id, now).Ok? <==> Expired(s, id, now)
  {
    ReapInv(s, id, now);
  }

  /** A claim, and every accepted heartbeat, holds it off for exactly its number of seconds. */
  lemma LeaseHoldsOffSweeper(s: Tables, s': Tables, verb: Verb, later: int)
    requires Inv(s) && (verb.Claim? || verb.Heartbeat?) && Call(s, verb) == Ok(s')
    ensures Expired(s', verb.id, later) <==> later > verb.now + verb.leaseSeconds
  {
    if verb.Claim? { ClaimCallLeases(s, s', verb); } else { HeartbeatCallLeases(s, s', verb); }
  }

  lemma ClaimCallLeases(s: Tables, s': Tables, verb: Verb)
    requires verb.Claim? && Call(s, verb) == Ok(s')
    ensures LeasedUntil(s', verb.id, verb.now + verb.leaseSeconds)
  {
    ClaimLeases(s, verb.id, verb.worker, verb.leaseSeconds, verb.now, verb.token);
  }

  lemma HeartbeatCallLeases(s: Tables, s': Tables, verb: Verb)
    requires Inv(s) && verb.Heartbeat? && Call(s, verb) == Ok(s')
    ensures LeasedUntil(s', verb.id, verb.now + verb.leaseSeconds)
  {
    HeartbeatLeases(s, verb.id, verb.token, verb.leaseSeconds, verb.now);
  }

  lemma ClaimLeases(s: Tables, id: string, worker: string, leaseSeconds: int, now: int, token: string)
    requires id in s.jobs && ClaimSpec(s, id, worker, leaseSeconds, now, token).Ok?
    ensures LeasedUntil(ClaimSpec(s, id, worker, leaseSeconds, now, token).value, id, now + leaseSeconds)
  {}

  lemma HeartbeatLeases(s: Tables, id: string, token: string, leaseSeconds: int, now: int)
    requires Inv(s) && HeartbeatSpec(s, id, token, leaseSeconds, now).Ok?
    ensures LeasedUntil(HeartbeatSpec(s, id, token, leaseSeconds, now).value, id, now + leaseSeconds)
  {
    HeldIsLeased(s, id, token);
  }

  lemma HeldIsLeased(s: Tables, id: string, token: string)
    requires Inv(s) && Holds(s, id, token)
    ensures Leased(s.jobs[id].status)
  {
    assert RowOk(s.jobs[id]);
  }

  /** Where an attempt ends: in the order stop, permanent failure, pending cancel, spent budget, requeue. The fence
      is gone in every case, so the same call again is refused; and a requeued job is on offer again exactly from the
      end of its backoff on, to workers with its capabilities. */
  lemma FailEndsAttempt(s: Tables, id: string, token: string, error: ErrorClass, retryable: bool, now: int,
                        capabilities: set<string>, later: int)
    requires Inv(s) && FailSpec(s, id, token, error, retryable, now).Ok?
    ensures
      var s', j := FailSpec(s, id, token, error, retryable, now).value, s.jobs[id];
      && id in s'.jobs && s'.jobs[id].attempt == j.attempt && s'.jobs[id].errorClass == Some(error)
      && FailSpec(s', id, token, error, retryable, later) == Err(Lookup)
      && s'.jobs[id].status == (
           if error.Stopped? then Cancelled
           else if !retryable then Failed
           else if j.cancelRequestedAt.Some? then Cancelled
           else if j.attempt == j.maxAttempts then DeadLetter
           else Queued)
      && (Claimable(s'.jobs[id], capabilities, later) <==>
            s'.jobs[id].status == Queued && j.required <= capabilities && later >= now + Backoff(j))
  {
    FailRow(s, id, token, error, retryable, now);
    assert RowOk(s.jobs[id]);
    EndedRow(s.jobs[id], error, retryable, now, capabilities, later);
  }

  lemma FailRow(s: Tables, id: string, token: string, error: ErrorClass, retryable: bool, now: int)
    requires FailSpec(s, id, token, error, retryable, now).Ok?
    ensures FailSpec(s, id, token, error, retryable, now).value.jobs
         == s.jobs[id := Ended(s.jobs[id], error, retryable, now)]
  {}

  lemma EndedRow(j: Job, error: ErrorClass, retryable: bool, now: int, capabilities: set<string>, later: int)
    requires RowOk(j)
    ensures
      var j' := Ended(j, error, retryable, now);
      && j'.attempt == j.attempt && j'.errorClass == Some(error) && j'.leaseToken.None?
      && j'.status == (
           if error.Stopped? then Cancelled
           else if !retryable then Failed
           else if j.cancelRequestedAt.Some? then Cancelled
           else if j.attempt == j.maxAttempts then DeadLetter
           else Queued)
      && (Claimable(j', capabilities, later) <==>
            j'.status == Queued && j.required <= capabilities && later >= now + Backoff(j))
  {}
}
