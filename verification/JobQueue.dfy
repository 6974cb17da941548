/**
 The leased job queue: rows, the database's transition guard and CHECKs, and the repository's verbs. Every
 verb is one transaction over locked rows; a verb that fails leaves the tables as they were.
 */
module JobQueue {
  import opened Basics

  datatype Status = Queued | Claimed | Running | Succeeded | Failed | Cancelled | DeadLetter

  datatype ErrorClass = Transient | Timeout | Infrastructure | Validation | Internal | LeaseExpired | Stopped

  datatype Job = Job(
    id: string, jobType: string, payload: string, key: string, createdAt: int,
    priority: int, required: set<string>, attempt: int, maxAttempts: int, backoffBase: int, availableAt: int,
    status: Status,
    claimedBy: Option<string>, leaseToken: Option<string>, leaseExpiresAt: Option<int>, heartbeatAt: Option<int>,
    cancelRequestedAt: Option<int>, startedAt: Option<int>, finishedAt: Option<int>,
    errorClass: Option<ErrorClass>, result: Option<string>)

  datatype Transition = Transition(
    job: string, from: Option<Status>, to: Status, attempt: int, at: int,
    worker: Option<string>, errorClass: Option<ErrorClass>)

  /** `minted` is a history variable: every lease token ever handed out. */
  datatype Tables = Tables(jobs: map<string, Job>, log: seq<Transition>, minted: set<string>)

  datatype Error = Lookup | BadValue | Integrity

  type Outcome<T> = Result<T, Error>

  const MAX_BACKOFF_SECONDS := 3600

  // ---------------------------------------------------------------------------
  // The database's own rules.

  predicate Terminal(st: Status) { st.Succeeded? || st.Failed? || st.Cancelled? || st.DeadLetter? }

  predicate Leased(st: Status) { st.Claimed? || st.Running? }

  predicate Legal(from: Status, to: Status) {
    match from
    case Queued => to.Claimed? || to.Cancelled?
    case Claimed => to.Running? || to.Queued? || to.Cancelled? || to.DeadLetter?
    case Running => to.Succeeded? || to.Failed? || to.Queued? || to.Cancelled? || to.DeadLetter?
    case DeadLetter => to.Queued?
    case _ => false
  }

  predicate Guard(old_: Job, new_: Job) {
    && old_.id == new_.id && old_.jobType == new_.jobType && old_.payload == new_.payload
    && old_.key == new_.key && old_.createdAt == new_.createdAt
    && (if old_.status == new_.status then !Terminal(old_.status) else Legal(old_.status, new_.status))
  }

  predicate Blank(s: string) {
    forall i | 0 <= i < |s| :: s[i] in {' ', '\t', '\n', '\r', '\U{0B}', '\U{0C}'}
  }

  predicate Checks(j: Job) {
    && !Blank(j.key) && j.priority >= 0 && j.maxAttempts >= 1 && j.backoffBase >= 1
    && 0 <= j.attempt <= j.maxAttempts
    && (Leased(j.status) <==> j.claimedBy.Some? && j.leaseToken.Some? && j.leaseExpiresAt.Some?)
    && (j.status.Running? ==> j.startedAt.Some?)
    && (Terminal(j.status) <==> j.finishedAt.Some?)
    && (j.status.DeadLetter? || j.status.Failed? ==> j.errorClass.Some?)
  }

  /** An UPDATE of one row: refused by the guard trigger or by a CHECK. */
  function Update(s: Tables, id: string, j: Job): Outcome<Tables>
    requires id in s.jobs
  {
    if !Guard(s.jobs[id], j) || !Checks(j) then Err(Integrity) else Ok(s.(jobs := s.jobs[id := j]))
  }

  function Entry(old_: Job, j: Job, now: int, worker: Option<string>, error: Option<ErrorClass>): Transition {
    Transition(j.id, Some(old_.status), j.status, j.attempt, now, worker, error)
  }

  /** A status change: the row and its history entry in one transaction. */
  function Move(s: Tables, id: string, j: Job, now: int, worker: Option<string>,
      error: Option<ErrorClass>): Outcome<Tables>
    requires id in s.jobs
  {
    match Update(s, id, j)
    case Ok(s') => Ok(s'.(log := s.log + [Entry(s.jobs[id], j, now, worker, error)]))
    case Err(e) => Err(e)
  }

  // ---------------------------------------------------------------------------
  // The verbs, as functions of the tables.

  function Power2(n: nat): (p: nat)
    ensures p >= 1
  {
    if n == 0 then 1 else 2 * Power2(n - 1)
  }

  /** Exponential in the attempts already spent, capped at one hour. */
  function Backoff(j: Job): int {
    var delay := j.backoffBase * Power2(if j.attempt > 1 then j.attempt - 1 else 0);
    if delay < MAX_BACKOFF_SECONDS then delay else MAX_BACKOFF_SECONDS
  }

  function ClearLease(j: Job): Job {
    j.(claimedBy := None, leaseToken := None, leaseExpiresAt := None, heartbeatAt := None)
  }

  function Finish(j: Job, status: Status, now: int, error: Option<ErrorClass>): Job {
    ClearLease(j).(status := status, finishedAt := Some(now), errorClass := error)
  }

  /** A requested cancel wins over both the requeue and the dead letter. */
  function RequeueOrDeadLetter(j: Job, now: int, error: ErrorClass): Job {
    if j.cancelRequestedAt.Some? then Finish(j, Cancelled, now, Some(error))
    else if j.attempt >= j.maxAttempts then Finish(j, DeadLetter, now, Some(error)).(startedAt := None)
    else
      ClearLease(j).(status := Queued, availableAt := now + Backoff(j), errorClass := Some(error), startedAt := None)
  }

  predicate FreshlyEnqueued(j: Job) {
    && j.status == Queued && j.attempt == 0
    && j.claimedBy.None? && j.heartbeatAt.None? && j.leaseExpiresAt.None? && j.cancelRequestedAt.None?
    && j.startedAt.None? && j.finishedAt.None? && j.errorClass.None? && j.result.None?
  }

  predicate KeyTaken(s: Tables, key: string) { exists id | id in s.jobs :: s.jobs[id].key == key }

  /** The mapper builds the row from the named columns only, so a caller's lease token never reaches it. */
  function EnqueueSpec(s: Tables, j: Job, now: int): Outcome<Tables> {
    var row := j.(leaseToken := None);
    if !FreshlyEnqueued(j) then Err(BadValue)
    else if j.id in s.jobs || KeyTaken(s, j.key) || !Checks(row) then Err(Integrity)
    else
      var entry := Transition(j.id, None, Queued, 0, now, None, None);
      Ok(s.(jobs := s.jobs[j.id := row], log := s.log + [entry]))
  }

  predicate Claimable(j: Job, capabilities: set<string>, now: int) {
    j.status == Queued && j.availableAt <= now && j.required <= capabilities && j.cancelRequestedAt.None?
  }

  /** Priority, then availability, then age; rows that tie on all three may come in any order. */
  predicate Sooner(a: Job, b: Job) {
    || a.priority < b.priority
    || (a.priority == b.priority &&
        (a.availableAt < b.availableAt || (a.availableAt == b.availableAt && a.createdAt < b.createdAt)))
  }

  predicate Best(s: Tables, id: string, capabilities: set<string>, now: int) {
    && id in s.jobs && Claimable(s.jobs[id], capabilities, now)
    && forall k | k in s.jobs && Claimable(s.jobs[k], capabilities, now) :: !Sooner(s.jobs[k], s.jobs[id])
  }

  function TakenBy(j: Job, worker: string, leaseSeconds: int, now: int, token: string): Job {
    j.(status := Claimed, claimedBy := Some(worker), leaseToken := Some(token),
       leaseExpiresAt := Some(now + leaseSeconds), heartbeatAt := Some(now), attempt := j.attempt + 1)
  }

  /** The claim of row `id`; `token` is the freshly minted fence. */
  function ClaimSpec(s: Tables, id: string, worker: string, leaseSeconds: int, now: int, token: string): Outcome<Tables>
    requires id in s.jobs
  {
    var j := TakenBy(s.jobs[id], worker, leaseSeconds, now, token);
    Move(s.(minted := s.minted + {token}), id, j, now, Some(worker), None)
  }

  predicate Holds(s: Tables, id: string, token: string) { id in s.jobs && s.jobs[id].leaseToken == Some(token) }

  function StartSpec(s: Tables, id: string, token: string, now: int): Outcome<Tables> {
    if !Holds(s, id, token) || s.jobs[id].status != Claimed then Err(Lookup)
    else
      var j := s.jobs[id].(status := Running, startedAt := Some(now));
      Move(s, id, j, now, j.claimedBy, None)
  }

  function HeartbeatSpec(s: Tables, id: string, token: string, leaseSeconds: int, now: int): Outcome<Tables> {
    if !Holds(s, id, token) then Err(Lookup)
    else Update(s, id, s.jobs[id].(leaseExpiresAt := Some(now + leaseSeconds), heartbeatAt := Some(now)))
  }

  function CompleteSpec(s: Tables, id: string, token: string, result: Option<string>, now: int): Outcome<Tables> {
    if !Holds(s, id, token) || s.jobs[id].status != Running then Err(Lookup)
    else
      var j := Finish(s.jobs[id], Succeeded, now, s.jobs[id].errorClass).(result := result);
      Move(s, id, j, now, s.jobs[id].claimedBy, None)
  }

  function FailSpec(s: Tables, id: string, token: string, error: ErrorClass, retryable: bool,
      now: int): Outcome<Tables>
  {
    if !Holds(s, id, token) then Err(Lookup)
    else
      var j := s.jobs[id];
      if error.Stopped? then
        if !Leased(j.status) then Err(Lookup)
        else Move(s, id, Finish(j, Cancelled, now, Some(error)), now, j.claimedBy, Some(error))
      else if j.status != Running then Err(Lookup)
      else
        var next := if retryable then RequeueOrDeadLetter(j, now, error) else Finish(j, Failed, now, Some(error));
        Move(s, id, next, now, j.claimedBy, Some(error))
  }

  function CancelSpec(s: Tables, id: string, now: int): Outcome<Tables> {
    if id !in s.jobs || Terminal(s.jobs[id].status) then Err(Lookup)
    else
      var j := s.jobs[id].(cancelRequestedAt := Some(now));
      if j.status.Queued? then Move(s, id, j.(status := Cancelled, finishedAt := Some(now)), now, None, None)
      else Update(s, id, j)
  }

  predicate Expired(s: Tables, id: string, now: int) {
    && id in s.jobs && Leased(s.jobs[id].status)
    && s.jobs[id].leaseExpiresAt.Some? && s.jobs[id].leaseExpiresAt.value < now
  }

  function ReapSpec(s: Tables, id: string, now: int): Outcome<Tables> {
    if !Expired(s, id, now) then Err(Lookup)
    else
      var j := s.jobs[id];
      Move(s, id, RequeueOrDeadLetter(j, now, LeaseExpired), now, j.claimedBy, Some(LeaseExpired))
  }

  function Retried(j: Job, now: int): Job {
    j.(status := Queued, attempt := 0, availableAt := now, finishedAt := None, errorClass := None,
       cancelRequestedAt := None)
  }

  function RetrySpec(s: Tables, id: string, now: int): Outcome<Tables> {
    if id !in s.jobs || s.jobs[id].status != DeadLetter then Err(Lookup)
    else Move(s, id, Retried(s.jobs[id], now), now, None, None)
  }
}
