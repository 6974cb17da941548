# CTF generator: verified model

A Dafny model of the generator core and of the competition platform behind it, with proofs of what the code keeps
over every run and every input. `dafny verify dfyconfig.toml` checks all of it.

| files | what they model |
|---|---|
| `Basics`, `Text` | options and outcomes, string order, sorting, sums over finite sets; Python's string operations |
| `Scoreboard`, `ScoreboardLaws` | the scoreboard fold, its loops proved against a definition on sets of solves |
| `Ledger` | submission transactions, statement by statement, under any interleaving |
| `Projection` | the transactional outbox, rival projector passes and the cached boards, on top of `Ledger` |
| `JobQueue`, `JobQueueLaws`, `JobQueueStore` | leased jobs: rows and guards, runs of the verbs, the repository methods |
| `QuotaLedger`, `QuotaLaws`, `QuotaStore` | quota counters and reservations, likewise |
| `LockOrder` | row locks of the quota verbs and deadlock |
| `Instances`, `InstanceLaws` | the instance state graph, generation fencing and the event stream |
| `Workers`, `WorkerLaws` | worker trust and bearer credentials, verb by verb |
| `WorkerTxns`, `WorkerTxnLaws` | the same verbs statement by statement, under any interleaving |
| `Conditions`, `Scenario`, `ScenarioLaws` | the trigger language, the tick engine and its runs |
| `AgentEval` | a fixed-plan solver with and without the scenario's defence |
| `BuildPublish` | publishing a build directory under failing file-system calls |
| `YamlScalars` | the YAML writer and the line reader paired with it |
| `SchemaMigration` | the migration chain |

A state the code changes in place is a class (`Store`, `Repository`, `Service`, `ScenarioRun`, `Client`, `Publisher`,
`Writer`, `Migrator`) whose methods are proved equal to a function of the old state; runs, invariants and the laws
between verbs are proved about those functions. Protocols with several actors (`Ledger`, `Projection`, `LockOrder`,
`WorkerTxns`) are state machines whose steps are single statements. Clocks, identifiers, tokens, hashes, case folding and scoring
engines are parameters. Times are integers.

## Where the code and its documentation part

- The projector's comment (src/ctf_generator/application/scoring/projector.py:162-165) and the lock module say that the
  `as_of_seq` guard alone is sufficient. It is not: `Projection.UnlockedLoses` has a run without the lock that drains
  the outbox and leaves a cached board that is not the refold of the committed solves, and
  `Projection.SafeConfigurations` gives the exact condition. The code takes the lock and is correct.
- The quota policy contract (src/ctf_generator/domain/repositories.py:736-746) promises that `upsert_limit` updates a
  limit in place. The code inserts if absent and writes the caller's counter value: `QuotaLaws.UpsertKeepsBalance`.
- A relaunch does not always restore a released hold, and the reconcile sweep can be refused as a whole, both after a
  limit cut: `QuotaLaws.CutBlocksRelaunch`, `QuotaLaws.CutBlocksSweep`; exactly when, in
  `QuotaLaws.ReactivateUndoesRelease` and `QuotaLaws.ReconcileExactly`.
- Reserve sorts its counters by code point, the other quota verbs by the database's collation; deadlock freedom of the
  mix depends on their agreement: `LockOrder.AgreementDecides`.
- A completed job keeps the error class of an earlier attempt: `JobQueueLaws.ErrorOutlivesSuccess`, and exactly when,
  `JobQueueLaws.StaleErrorOnSuccess`.
- A rotation checks the worker's trust twice without locking the row. That is enough because the second check, just
  before the insert, reads the row again: sessions run at READ COMMITTED
  (src/ctf_generator/infrastructure/database/session.py:35-40) and the registry's `get` keeps no row object, so the
  session's weak identity map has none to answer with. Were that read served from the first one, a revocation in
  between would leave a revoked worker with a live credential: `WorkerTxnLaws.SecondLookDecides`.
- The build publisher says the move-aside backup is never left over; it is when the target was a regular file:
  `BuildPublish.LeaveBackup`, and exactly then, `BuildPublish.Publisher.WriteBuild`.
- The YAML reader returns another field's text for some keys: `YamlScalars.RoundTripExactly`,
  `YamlScalars.MarkedKeyShadows`.
- The migration loop is said to catch a step that overshoots the current minor; it catches only a gap after it, and it
  gives up on the 65th step even if that step arrives: `SchemaMigration.OvershootCanPass`,
  `SchemaMigration.LongLadderRefused`.
- The defended client's refusal repeats the target's name, which the flag search also reads, so the defence can hand
  over a flag or shorten a solve: `AgentEval.DefenceCanHelp`, `AgentEval.DefenceCanSaveSteps`; exactly when, in
  `AgentEval.DominanceFailsExactly`.

## Model

| member | source | states |
|---|---|---|
| `Scoreboard.DedupeSolves` | src/ctf_generator/scoreboard.py:101-117 | the loop keeps exactly the earliest solve of every (team, challenge) pair, one event per pair |
| `Scoreboard.CanonicalCommutesWithFilter` | src/ctf_generator/scoreboard.py:72-117 | filtering by the render time and keeping the earliest solve of each pair commute, for every set of solves and every freeze |
| `Scoreboard.CountSolves` | src/ctf_generator/scoreboard.py:140-144 | after the loop each challenge is counted as many times as it has canonical solves |
| `Scoreboard.ComputeChallengeValues` | src/ctf_generator/scoreboard.py:123-160 | the value rows are those of the set of in-time solves, in challenge order, or the first challenge without configuration |
| `Scoreboard.GroupByChallenge` | src/ctf_generator/scoreboard.py:196-198 | grouping loses and duplicates no solve |
| `Scoreboard.AwardChallenge` | src/ctf_generator/scoreboard.py:204-216 | awarding one challenge adds to every team exactly its points for it, with the bonus on the first blood only |
| `Scoreboard.FoldChallenges` | src/ctf_generator/scoreboard.py:200-216 | the accumulated score, solved set and last solve of every team are the sums over its canonical solves |
| `Scoreboard.CollectEntries` | src/ctf_generator/scoreboard.py:218-226 | one entry per team with a score, holding its totals |
| `Scoreboard.ComputeScoreboard` | src/ctf_generator/scoreboard.py:163-235 | the fold over a list of events equals the board defined on the set of their (team, challenge, time, submission) tuples, so order, repetition and seeds cannot matter |
| `ScoreboardLaws.BoardSeesOnlyCanonical` | src/ctf_generator/scoreboard.py:94-117 | the board of a set of solves is the board of its canonical in-time solves |
| `ScoreboardLaws.BoardDependsOnCanonicalSolves` | src/ctf_generator/scoreboard.py:163-193 | two event lists with the same canonical in-time solves have the same board |
| `ScoreboardLaws.LaterResolveIgnored` | src/ctf_generator/scoreboard.py:101-117 | a later re-solve of a solved pair never changes the board |
| `ScoreboardLaws.AfterFreezeIgnored` | src/ctf_generator/scoreboard.py:72-75 | an event after the freeze never changes the board, wherever it stands in the list |
| `ScoreboardLaws.Ranking` | src/ctf_generator/scoreboard.py:227-249 | ranks are 1..n, strictly ordered by score, last solve and team, and each scoring team appears exactly once |
| `ScoreboardLaws.ScoreConservation` | src/ctf_generator/scoreboard.py:200-216 | entry scores add up to value times solvers plus one first-blood bonus, over the solved challenges |
| `ScoreboardLaws.SolveCountConservation` | src/ctf_generator/scoreboard.py:218-226 | entry solve counts add up to the number of canonical solves |
| `ScoreboardLaws.PairsSolved` | src/ctf_generator/scoreboard.py:101-117 | the canonical solves are one per distinct (team, challenge) pair |
| `Ledger.StepInv` | src/ctf_generator/application/submissions/service.py:102-301 | every statement of every interleaved submission transaction keeps keys unique, solves backed by correct submissions and matched with solve events, and uncommitted rows apart |
| `Ledger.AtMostOneSolve` | alembic/versions/20260712_0005_ledger.py:154-171 | for any interleaving with any number of aborts: at most one solve per tuple, exactly one once a correct attempt has committed, and each solve cites a correct submission of its tuple |
| `Ledger.SolveEventsAreSolves` | alembic/versions/20260712_0005_ledger.py:43-53 | solve events and solve rows correspond one to one |
| `Ledger.LedgerGrows` | alembic/versions/20260712_0005_ledger.py:55-66 | submissions, solves and events only grow |
| `Ledger.AttemptRecorded` | src/ctf_generator/application/submissions/service.py:178-300 | an attempt that commits is recorded whether correct or not, and a correct one leaves its challenge solved |
| `Ledger.FirstCorrectAttempt` | src/ctf_generator/application/submissions/service.py:118-300 | a first correct attempt that nothing stands in the way of writes its submission, its solve and the next event |
| `Ledger.ReplayWritesNothing` | src/ctf_generator/application/submissions/service.py:118-121 | an attempt with a known submission id writes nothing, whichever of the two checks finds the id |
| `Ledger.ReplayIsStable` | src/ctf_generator/application/submissions/service.py:303-332 | a committed attempt stays the only row with its id, and re-sending the id is answered the same at any later time, as a replay or as an identity conflict |
| `Projection.Refold` | src/ctf_generator/application/scoring/projector.py:184-231 | the refold loop returns the board of the events given and their highest number, or fails on an unsupported event or a missing configuration |
| `Projection.LedgerInv` | alembic/versions/20260712_0008_score_projection.py:14-18 | no ledger statement, committing or not, breaks what the cache and the open passes rely on |
| `Projection.CommitEnqueues` | alembic/versions/20260712_0008_score_projection.py:40-47 | in the step that commits an event it becomes pending, and no fold has seen it before |
| `Projection.PublishInv` | src/ctf_generator/application/scoring/projector.py:166-169 | publishing keeps every event that left the outbox inside the cached fold |
| `Projection.RebuildInv` | src/ctf_generator/infrastructure/database/score_projection_repository.py:149-174 | dropping the cache and requeueing every event keeps the same invariant |
| `Projection.GuardAccepts` | src/ctf_generator/infrastructure/database/score_projection_repository.py:207-224 | under the competition lock the upsert guard never rejects a refold |
| `Projection.ShippedComplete` | alembic/versions/20260712_0008_score_projection.py:9-18 | in every run each committed event is in the outbox or inside the cached fold |
| `Projection.DrainedBoard` | alembic/versions/20260712_0008_score_projection.py:3-18 | a drained competition caches the from-scratch refold of its events, which is the board of its rows in the solves table |
| `Projection.PoisonStays` | src/ctf_generator/application/scoring/projector.py:194-205 | an event the fold does not support is never dropped from the outbox nor folded |
| `Projection.LonePass` | src/ctf_generator/application/scoring/projector.py:153-170 | a pass that runs alone caches the fold of everything committed and removes exactly the rows it claimed |
| `Projection.CanDrain` | src/ctf_generator/application/scoring/projector.py:143-151 | from every reachable state a competition without diverted rows whose fold succeeds can be drained, whatever passes are under way |
| `Projection.UnlockedLoses` | src/ctf_generator/application/scoring/projector.py:162-166 | without the competition lock a run with two solves drains the outbox and caches a board that is not their refold |
| `Projection.StrictLoses` | src/ctf_generator/infrastructure/database/score_projection_repository.py:221 | so does a run with a strict guard |
| `Projection.SafeConfigurations` | src/ctf_generator/application/scoring/projector.py:162-169 | every drained board is the refold of its events, and no event is ever lost, if and only if refolds hold the lock and the guard is not strict |
| `Projection.CursorReader` | alembic/versions/20260712_0008_score_projection.py:3-9 | a `seq > cursor` reader delivers everything if and only if numbers commit in number order |
| `JobQueueLaws.StepInv` | alembic/versions/20260712_0006_jobs.py:81-116 | no verb is ever refused by the transition guard or a CHECK, and every verb keeps the row, token, key and history invariants |
| `JobQueueLaws.EveryRun` | alembic/versions/20260712_0006_jobs.py:178-213 | in every run all CHECKs and the stronger row rules hold, queued rows have budget left and no pending cancel, and the history chains to the row within its budgets |
| `JobQueueLaws.AtMostThreePerAttempt` | alembic/versions/20260712_0006_jobs.py:187-192 | without operator requeue a job makes at most three status changes per attempt |
| `JobQueueLaws.ZombieRefused` | src/ctf_generator/domain/repositories.py:440-446 | after a newer claim, every fenced verb with the older token is refused and changes nothing, at any later time |
| `JobQueueLaws.StaleForever` | src/ctf_generator/infrastructure/database/job_queue_repository.py:191-207 | a token that is not the current fence never becomes it again |
| `JobQueueLaws.CancelSticks` | src/ctf_generator/infrastructure/database/job_queue_repository.py:244-268 | a job cancelled while leased is never queued or dead-lettered again |
| `JobQueueLaws.CancelDooms` | src/ctf_generator/infrastructure/database/job_queue_repository.py:487-501 | an accepted cancel request puts the job in that condition |
| `JobQueueLaws.LogGrows` | src/ctf_generator/infrastructure/database/job_queue_repository.py:166-189 | the transition history is append-only |
| `JobQueueLaws.StaleErrorOnSuccess` | src/ctf_generator/infrastructure/database/job_queue_repository.py:401-421 | a succeeded row carries an error class if and only if it needed more than one attempt |
| `JobQueueLaws.ErrorOutlivesSuccess` | src/ctf_generator/infrastructure/database/job_queue_repository.py:401-421 | a run in which the error of the first attempt stays on the succeeded row |
| `JobQueueLaws.BackoffDoubles` | src/ctf_generator/infrastructure/database/job_queue_repository.py:228-233 | the delay starts at the base, doubles with each attempt and stops at one hour |
| `JobQueueLaws.LeaseHoldsOffSweeper` | src/ctf_generator/infrastructure/database/job_queue_repository.py:367-399 | after a claim or an accepted heartbeat the lease counts as expired exactly after the given number of seconds |
| `JobQueueLaws.ReapsExactlyExpired` | src/ctf_generator/infrastructure/database/job_queue_repository.py:503-517 | the sweeper takes a job if and only if its lease has expired, and is never refused |
| `JobQueueLaws.FailEndsAttempt` | src/ctf_generator/infrastructure/database/job_queue_repository.py:423-485 | which status every failure leads to; the same call again is refused, and a requeued job is on offer exactly from the end of its backoff to workers with its capabilities |
| `JobQueueStore.Store.Enqueue` | src/ctf_generator/infrastructure/database/job_queue_repository.py:302-320 | inserts a queued row and its first history entry; a duplicate id or key, or a row a CHECK rejects, changes nothing |
| `JobQueueStore.Store.FindBest` | src/ctf_generator/infrastructure/database/job_queue_repository.py:355-369 | finds a claimable row that no claimable row precedes, or none exists |
| `JobQueueStore.Store.Claim` | src/ctf_generator/infrastructure/database/job_queue_repository.py:336-383 | claims a best row with the minted token, or reports that nothing is claimable |
| `JobQueueStore.Store.Start` | src/ctf_generator/infrastructure/database/job_queue_repository.py:385-392 | the fenced move from claimed to running, or nothing |
| `JobQueueStore.Store.Heartbeat` | src/ctf_generator/infrastructure/database/job_queue_repository.py:394-399 | renews the fenced lease and reports a pending cancel |
| `JobQueueStore.Store.Complete` | src/ctf_generator/infrastructure/database/job_queue_repository.py:401-421 | the fenced move from running to succeeded with the result, or nothing |
| `JobQueueStore.Store.Fail` | src/ctf_generator/infrastructure/database/job_queue_repository.py:423-485 | the fenced failure in all its branches, or nothing |
| `JobQueueStore.Store.RequestCancel` | src/ctf_generator/infrastructure/database/job_queue_repository.py:487-501 | cancels a queued job, stamps a leased one, refuses a finished one |
| `JobQueueStore.Store.ReapExpired` | src/ctf_generator/infrastructure/database/job_queue_repository.py:503-517 | reaps the earliest expired leases up to the limit, and fewer only when none is left |
| `JobQueueStore.Store.RetryDeadLetter` | src/ctf_generator/infrastructure/database/job_queue_repository.py:525-541 | requeues a dead letter with a fresh budget, or nothing |
| `QuotaLaws.HoldExactly` | src/ctf_generator/infrastructure/database/quota_repository.py:182-213 | counters are taken exactly when every one exists and has room, and then each moves by its own amount |
| `QuotaLaws.ReserveExactly` | src/ctf_generator/domain/repositories.py:767-772 | a reserve succeeds if and only if its id is new and every ceiling and counter admits it, and moves exactly the counters it names |
| `QuotaLaws.CountersBalance` | alembic/versions/20260712_0009_scheduling_quotas.py:131-141 | in every run each pooled counter is the sum of the held items at it, none is negative, ceilings are zero |
| `QuotaLaws.UpsertKeepsBalance` | src/ctf_generator/infrastructure/database/quota_repository.py:75-98 | seeding keeps the balance if and only if the row exists already or is seeded empty |
| `QuotaLaws.ReleaseUndoesReserve` | src/ctf_generator/infrastructure/database/quota_repository.py:296-316 | releasing a fresh reservation restores every counter |
| `QuotaLaws.ReleasedOnce` | src/ctf_generator/infrastructure/database/quota_repository.py:306-307 | whatever else runs in between, releasing a released reservation again changes nothing until it is re-held |
| `QuotaLaws.ReactivateUndoesRelease` | src/ctf_generator/infrastructure/database/quota_repository.py:242-274 | re-holding a released reservation restores the counters if and only if none of them was above its limit |
| `QuotaLaws.CutBlocksRelaunch` | src/ctf_generator/infrastructure/database/quota_repository.py:242-274 | a run with a limit cut after which a released reservation cannot be re-held |
| `QuotaLaws.AboveLimitOnlyFalls` | alembic/versions/20260712_0009_scheduling_quotas.py:80-98 | a counter above its limit can only have fallen, whatever the verb |
| `QuotaLaws.ReconcileExactly` | src/ctf_generator/infrastructure/database/quota_repository.py:343-391 | the sweep restores every counter at once, if and only if no pool held above its limit has a counter that drifted low; otherwise it changes nothing |
| `QuotaLaws.CutBlocksSweep` | src/ctf_generator/infrastructure/database/quota_repository.py:343-391 | a run with a limit cut after which a counter that drifted low makes the sweep fail |
| `QuotaLaws.ReconcileNoOp` | src/ctf_generator/infrastructure/database/quota_repository.py:343-391 | without drift the sweep changes nothing |
| `QuotaStore.Store.Reserve` | src/ctf_generator/infrastructure/database/quota_repository.py:215-240 | header, ceilings and counters in place, with a full roll-back on any failure |
| `QuotaStore.Store.HoldItems` | src/ctf_generator/infrastructure/database/quota_repository.py:182-213 | raises the counters row by row as specified, or reports the first failure |
| `QuotaStore.Store.Release` | src/ctf_generator/infrastructure/database/quota_repository.py:296-316 | lowers the counters of a held reservation and marks it released; otherwise nothing |
| `QuotaStore.Store.Reactivate` | src/ctf_generator/infrastructure/database/quota_repository.py:242-274 | re-holds a released reservation in place, all or nothing |
| `QuotaStore.Store.Renew` | src/ctf_generator/infrastructure/database/quota_repository.py:276-294 | extends a held reservation only |
| `QuotaStore.Store.UpsertLimit` | src/ctf_generator/infrastructure/database/quota_repository.py:75-98 | inserts a missing row as given and leaves an existing one alone |
| `QuotaStore.HeldSums` | src/ctf_generator/infrastructure/database/quota_repository.py:360-381 | the grouped sums of the held items |
| `QuotaStore.Store.ReconcileCounters` | src/ctf_generator/infrastructure/database/quota_repository.py:343-391 | recomputes every counter or rolls back, and reports how many rows had drifted |
| `LockOrder.NoWaitCycle` | src/ctf_generator/domain/scheduling/models.py:252-256 | with one lock order the waits-for relation has no cycle |
| `LockOrder.SomeoneProceeds` | src/ctf_generator/domain/repositories.py:767-772 | with one lock order some unfinished transaction can always move |
| `LockOrder.AllCanEnd` | src/ctf_generator/domain/repositories.py:767-772 | any such state can be run to the end of every transaction |
| `LockOrder.RunExclusive` | src/ctf_generator/infrastructure/database/quota_repository.py:122-133 | a row lock never has two holders |
| `LockOrder.ReservesNeverStuck` | src/ctf_generator/domain/scheduling/models.py:252-256 | any number of concurrent reserves, in any interleaving, can all finish |
| `LockOrder.AgreementDecides` | src/ctf_generator/infrastructure/database/quota_repository.py:149-160 | mixed with releases, reactivations and sweeps this holds if and only if the collation orders the counters of the admitted scopes and pooled dimensions as code points do |
| `Instances.Repository.Add` | src/ctf_generator/infrastructure/database/instance_repository.py:123-143 | inserts the row and its creation event, or nothing on a duplicate or a bad generation |
| `Instances.Repository.Transition` | src/ctf_generator/infrastructure/database/instance_repository.py:202-226 | a guarded move with its event, a silent no-op for the present state, or a refusal without effect |
| `Instances.Repository.FenceStaleWorker` | src/ctf_generator/infrastructure/database/instance_repository.py:251-274 | clears the dead worker and bumps if worker and generation are still as observed; reports whether it did |
| `Instances.Repository.FenceMissingContainer` | src/ctf_generator/infrastructure/database/instance_repository.py:276-290 | bumps if the generation is still as observed; reports whether it did |
| `Instances.Repository.BumpGeneration` | src/ctf_generator/infrastructure/database/instance_repository.py:244-249 | the unconditional bump, or a refusal |
| `Instances.Repository.SetRuntimeFacts` | src/ctf_generator/infrastructure/database/instance_repository.py:292-310 | overwrites the facts given and keeps the others |
| `InstanceLaws.StepShape` | alembic/versions/20260712_0010_instances.py:81-132 | every verb leaves all rows but one alone and changes that one in one of five ways |
| `InstanceLaws.EveryRun` | alembic/versions/20260712_0010_instances.py:81-132 | in every run an instance's events chain along the state graph and replay to its state, and its generation is the initial one plus its accepted bumps |
| `InstanceLaws.AtMostOneWinner` | src/ctf_generator/infrastructure/database/instance_repository.py:276-290 | of any number of passes with the same expected generation at most one is accepted |
| `InstanceLaws.MissingPassWins` | src/ctf_generator/infrastructure/database/instance_repository.py:276-290 | a pass with the current generation is accepted unless the row is archived |
| `InstanceLaws.StalePassWins` | src/ctf_generator/infrastructure/database/instance_repository.py:251-274 | so is one with the current worker and generation, and it clears the assignment |
| `InstanceLaws.ArchivedIsFrozen` | alembic/versions/20260712_0010_instances.py:91-94 | an archived row and its event stream never change again |
| `InstanceLaws.ArchivedRefuses` | alembic/versions/20260712_0010_instances.py:91-94 | every write to an archived row is refused; only a move to the state it is in passes, without effect |
| `InstanceLaws.EveryInstanceCanArchive` | alembic/versions/20260712_0010_instances.py:98-127 | from every reachable state every instance can still be archived without touching another |
| `Workers.PrintThenParse` | src/ctf_generator/application/worker_enrollment.py:92-104 | a printed token parses back if and only if the id is non-empty without a dot and the secret is non-empty |
| `Workers.ParseThenPrint` | src/ctf_generator/application/worker_enrollment.py:92-104 | whatever parses is the printed form of its parts |
| `Workers.Service.Approve` | src/ctf_generator/application/worker_enrollment.py:127-137 | trust and first credential in one transaction; a failing issue takes the trust back |
| `Workers.Service.Rotate` | src/ctf_generator/application/worker_enrollment.py:139-159 | revokes the live credential and issues its replacement, or changes nothing |
| `Workers.Service.Revoke` | src/ctf_generator/application/worker_enrollment.py:161-168 | revokes the worker and its live credential |
| `Workers.Service.Authenticate` | src/ctf_generator/application/worker_enrollment.py:172-206 | the checks in order: form, existence, hash, revocation, expiry, trust, quarantine |
| `WorkerLaws.OneLiveCredential` | alembic/versions/20260712_0007_workers.py:179-185 | in every run of the verbs a trusted worker has exactly one unrevoked credential and any other worker none |
| `WorkerLaws.AuthenticatesExactly` | src/ctf_generator/application/worker_enrollment.py:172-206 | with a collision-free digest a token authenticates as a worker if and only if it presents the latest credential issued to it, unexpired, while trusted and not quarantined |
| `WorkerLaws.RotationSwitches` | src/ctf_generator/application/worker_enrollment.py:139-159 | after a rotation exactly the new token authenticates |
| `WorkerLaws.RevokedNeverAuthenticates` | alembic/versions/20260712_0007_workers.py:61-76 | after a revocation no token ever authenticates as that worker again |
| `WorkerTxns.NeverTwoLive` | alembic/versions/20260712_0007_workers.py:179-185 | in every interleaving of the statements a worker has at most one unrevoked credential |
| `WorkerTxns.RevokedForGood` | alembic/versions/20260712_0007_workers.py:61-76 | from the commit of a revocation on, in every interleaving, no token authenticates as that worker |
| `WorkerTxnLaws.CommitIsVerb` | src/ctf_generator/application/worker_enrollment.py:127-168 | a committing transaction changes the tables as its verb does on the tables it commits into, but for the time of a second revocation |
| `WorkerTxnLaws.Serializable` | src/ctf_generator/infrastructure/database/worker_repository.py:45-91 | every interleaving ends in the tables of some run of the verbs one at a time, but for revocation times |
| `WorkerTxnLaws.EveryInterleaving` | src/ctf_generator/application/worker_enrollment.py:139-206 | in every interleaving a trusted worker has exactly one unrevoked credential, any other none, and a token authenticates if and only if it is the current one |
| `WorkerTxnLaws.StaleLookLeaks` | src/ctf_generator/application/worker_enrollment.py:222-229 | a rotation racing a revocation leaves a revoked worker with a live credential if its second look is not a read of the row |
| `WorkerTxnLaws.SecondLookDecides` | src/ctf_generator/application/worker_enrollment.py:222-229 | only trusted workers ever hold an unrevoked credential if and only if the second look reads the row anew |
| `Conditions.EvaluateRefines` | src/ctf_generator/scenario.py:324-418 | evaluating the printed string of any conjunction of well-named clauses gives its meaning |
| `Conditions.ClauseRefines` | src/ctf_generator/scenario.py:339-356 | the same for one clause of each kind |
| `Conditions.GrowingStaysTrue` | src/ctf_generator/scenario.py:359-418 | a condition of `time:>=`, `event`, `checkpoint` and `count:>=` clauses stays true once true |
| `Conditions.ErrorNeedsTruthBefore` | src/ctf_generator/scenario.py:336 | a malformed clause is reported if and only if every clause before it is true |
| `Scenario.ParseSets` | src/ctf_generator/scenario.py:421-431 | the loop builds the map of the pairs |
| `ScenarioLaws.LastPairWins` | src/ctf_generator/scenario.py:421-431 | a key is set if and only if some pair names it, and of several pairs for one key the last counts |
| `Scenario.ScenarioRun.ApplyResponse` | src/ctf_generator/scenario.py:491-540 | one response's effect on environment, bus, state and report |
| `Scenario.ScenarioRun.ApplyResponses` | src/ctf_generator/scenario.py:482-540 | the responses of an agent applied in order |
| `Scenario.ScenarioRun.Run` | src/ctf_generator/scenario.py:602-629 | the whole run: poll, attacker, defender, tick by tick, or the first error |
| `ScenarioLaws.LongerRunsExtend` | src/ctf_generator/scenario.py:596-629 | the report of an n-tick run is a prefix of the report of every longer run |
| `ScenarioLaws.ReportIsTidy` | src/ctf_generator/scenario.py:515-537 | timeline equals bus, records are in tick order, fired triggers are listed once each, the noise counter counts the noise |
| `ScenarioLaws.TriggersFireFirst` | src/ctf_generator/scenario.py:303-314 | each trigger fires at no tick but the first where its condition holds at the decision point, its responses are applied there and only there, and the report lists it once |
| `ScenarioLaws.FiredAreHeld` | src/ctf_generator/scenario.py:534-537 | the fired triggers are those that held at some decision point |
| `ScenarioLaws.GrowingTriggerLatches` | src/ctf_generator/scenario.py:324-418 | a trigger on growing clauses holds at every decision point after the first where it holds |
| `ScenarioLaws.BlockedHasNoEffect` | src/ctf_generator/scenario.py:259-277 | a blocked move leaves the state as it is |
| `AgentEval.FindFlagExactly` | src/ctf_generator/agent_eval.py:80 | the search finds a flag exactly in the texts that hold one |
| `AgentEval.ExtractPlan` | src/ctf_generator/agent_eval.py:184-207 | candidates without repetition in order of first appearance, or the defaults, and the last value of each header |
| `AgentEval.Client.Send` | src/ctf_generator/agent_eval.py:830-851 | each request advances the tick and is answered by the first broken target it mentions, or by the application |
| `AgentEval.Client.RunPlan` | src/ctf_generator/agent_eval.py:246-265 | the solver's loop over the plan |
| `AgentEval.RunDelta` | src/ctf_generator/agent_eval.py:886-925 | both legs against the same application |
| `AgentEval.SolvesAtFirst` | src/ctf_generator/agent_eval.py:248-265 | the solver stops at the first request in reach whose answer has a flag, and otherwise uses them all |
| `AgentEval.BrokenAtMinimum` | src/ctf_generator/agent_eval.py:819-828 | for records in tick order `setdefault` keeps one entry per target, its earliest record |
| `AgentEval.AnswerFlag` | src/ctf_generator/agent_eval.py:839-851 | when a defended answer holds a flag |
| `AgentEval.DefenceDominates` | src/ctf_generator/agent_eval.py:671-679 | if no broken target is itself a flag, a defended solve is a baseline solve and the step delta is not negative |
| `AgentEval.MoreDefenceNeverHelps` | src/ctf_generator/agent_eval.py:819-851 | adding or advancing breaks never turns a non-solve into a solve and never saves a step |
| `AgentEval.DominanceFailsExactly` | src/ctf_generator/agent_eval.py:846-848 | without that condition dominance fails, in the solve or in the step delta, if and only if a request in reach is blocked on a target that is a flag and the application has shown none up to it |
| `AgentEval.DefenceCanHelp` | src/ctf_generator/agent_eval.py:846-848 | a run where only the defended leg solves |
| `AgentEval.DefenceCanSaveSteps` | src/ctf_generator/agent_eval.py:676-679 | a run where both legs solve and the step delta is -2 |
| `AgentEval.LongerScenarioNeverHelps` | src/ctf_generator/agent_eval.py:886-925 | a longer scenario never helps the agent |
| `BuildPublish.NormalizedIsNormal` | src/ctf_generator/build.py:124-168 | an accepted path normalises to a fixed point without empty, `.` or `..` parts |
| `BuildPublish.NoCaseCollision` | src/ctf_generator/build.py:348-360 | no two paths of a build fold alike |
| `BuildPublish.Publisher.NormalizeAll` | src/ctf_generator/build.py:348-363 | the loop's result or first error |
| `BuildPublish.Publisher.WriteInputs` | src/ctf_generator/build.py:365-374 | the written tree, or a failure; without failing calls it succeeds exactly within the limit and without file and directory clashes |
| `BuildPublish.Publisher.BuildManifests` | src/ctf_generator/build.py:231-280 | the manifests list exactly the digests and sizes of the inputs, the public one the public files only |
| `BuildPublish.Publisher.ReserveSibling` | src/ctf_generator/build.py:212-219 | a fresh name, free again, or an empty directory left behind |
| `BuildPublish.Publisher.Replace` | src/ctf_generator/build.py:390-404 | move aside, rename in, restore: every intermediate state is safe |
| `BuildPublish.Publisher.Publish` | src/ctf_generator/build.py:382-405 | the same with the check repeated just before the move |
| `BuildPublish.Publisher.WriteBuild` | src/ctf_generator/build.py:283-414 | whatever call fails, every state is safe, success leaves exactly the specified tree, failure the previous target in place or in the backup; without failing calls it succeeds if and only if target and files are acceptable; a backup is left over if and only if the target was a regular file |
| `BuildPublish.LeaveBackup` | src/ctf_generator/build.py:401-404 | a build over a regular file, with no failing call, that leaves the backup behind |
| `BuildPublish.PreviousBuildSurvives` | src/ctf_generator/build.py:378-404 | in every state the previous target is in place or in the backup, unless the complete new build is |
| `BuildPublish.UnmarkedNeverRemoved` | src/ctf_generator/build.py:324-328 | a non-empty unmarked directory at the target is never touched |
| `YamlScalars.EscapeRoundTrip` | src/ctf_generator/yaml_writer.py:46-48 | the reader's two replacements undo the writer's two for every string |
| `YamlScalars.Writer.Write` | src/ctf_generator/yaml_writer.py:10-36 | the recursive writer appends exactly the lines of the value |
| `YamlScalars.LinesShape` | src/ctf_generator/yaml_writer.py:10-36 | a value without line breaks is written in single lines at its indentation or deeper |
| `YamlScalars.RoundTripExactly` | src/ctf_generator/cli.py:1349-1365 | a field reads back for every string if and only if no line before it starts with its prefix and ends with a quote |
| `YamlScalars.OrdinaryRoundTrip` | src/ctf_generator/cli.py:1349-1365 | with ordinary keys, and any nesting around it, a field reads back as written |
| `YamlScalars.MarkedKeyShadows` | src/ctf_generator/cli.py:1360-1364 | a key holding `: "` can be read in place of a shorter one |
| `SchemaMigration.Migrator.Migrate` | src/ctf_generator/schema.py:125-174 | the loop ends for every registry and returns what the chain specifies |
| `SchemaMigration.Migrator.Register` | src/ctf_generator/schema.py:109-114 | registers by major and minor of the source version, or refuses a malformed one |
| `SchemaMigration.MigratesExactly` | src/ctf_generator/schema.py:125-174 | what becomes of every document: refused with its error if it declares another schema or an incompatible version; unchanged in version if its minor is newer; otherwise upgraded and stamped if and only if a contiguous chain of at most 64 compatible steps leads to the current version |
| `SchemaMigration.MigrateIdempotent` | src/ctf_generator/schema.py:125-174 | migrating a result changes nothing |
| `SchemaMigration.CyclesAreRefused` | src/ctf_generator/schema.py:169-172 | a chain that comes back to a version it has been at is refused |
| `SchemaMigration.OvershootCanPass` | src/ctf_generator/schema.py:164-168 | a step past the current minor is not caught if another step leads back |
| `SchemaMigration.LongLadderRefused` | src/ctf_generator/schema.py:169-172 | a complete chain of n minors is followed to its end if and only if n is at most 64 |

## Left out

- Scoring engines, the first-blood rounding and percentages: the rounded values are uninterpreted functions of their inputs.
- Competition and challenge configuration is fixed during a projection run; the projector re-reads it in every pass.
- The projector's attempt counter: a diversion of unclaimed rows to `failed` may happen at any time.
- Score events other than solves are of two kinds, score-neutral or unsupported; only the submission path writes solve events. An unparseable time stamp counts as unsupported.
- The checks before a submission is recorded (publication, draft state, spoofed seed) and flag verification: a transaction starts with the verifier's answer.
- Error details, log references, audit linkage and list queries of the job queue; job types and priorities beyond their CHECKs.
- Demands are well-formed by construction, so `QuotaStore.Store.Reserve` requires it.
- QuotaLaws.CountersBalance: assumes limits are seeded with an empty counter, because a seed writes the caller's value; `QuotaLaws.UpsertKeepsBalance` says exactly when the balance is kept.
- JobQueueStore.Store.Claim: assumes the minted token is new, as a random UUID is.
- JobQueueStore.Store.ReapExpired: assumes tables the verbs can produce, so that no update of the sweep is refused.
- Row locks other than those of the quota verbs, and lock upgrades by foreign keys; `SKIP LOCKED` appears as claims of unclaimed rows.
- Endpoints, runtime resources, health observations and issued credentials of instances; resolution of worker names.
- Worker profile, drain and heartbeat fields. In `WorkerTxns` registration and quarantine are single steps, minted ids are checked for collisions, and the kinds of refusals are not told apart.
- WorkerLaws.AuthenticatesExactly: assumes a digest without collisions, and speaks of ids up to their spelling.
- Decimal digits outside ASCII, which the condition patterns also accept.
- The attacker's sort of its moves: it is stable, so the moves of one tick keep their plan order. The default defender built from a flat specification.
- ScenarioLaws.TriggersFireFirst: assumes distinct non-empty trigger ids with at least one response each and an attacker whose payloads carry no trigger id; a payload with one marks the trigger as fired.
- Deadlines, the LLM agent, Docker and HTTP; the regular expressions that find paths and headers in the public files.
- AgentEval.DefenceDominates: assumes that no broken target is itself a flag; `AgentEval.DominanceFailsExactly` covers the rest.
- The check of dangerous output roots is a given answer; symbolic links inside the build directory, racing writers and the text of the JSON documents.
- BuildPublish.Publisher.WriteBuild: assumes that temporary names are fresh, as `mkdtemp` makes them.
- YamlScalars.OrdinaryRoundTrip: excludes keys that hold `: "` or start with two spaces, for which it is false; `YamlScalars.RoundTripExactly` has the exact condition.
- Migration functions that raise; patch numbers, which nothing compares.
- Family registries, plug-ins, session dictionaries, templates and command dispatch: they would add easy members only.
