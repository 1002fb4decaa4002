# Verification of the gateway's stateful core

Dafny models, with proofs, of the parts of the gateway whose correctness depends on many steps
interleaving: how captures of a host are paced, how domain blocking is inserted into a browser
connection, how sessions and attempts are admitted, how browser instances are drained and removed, how
costs are fixed and attributed, how commands in flight are accounted for, and how live events are merged.

Check everything with `dafny verify dfyconfig.toml`.

## How to read it

Each component has a pure specification (functions on datatypes and maps), methods that change state the
way the source does and are proved equal to the specification, and lemmas about the specification: what
every step keeps, and what therefore holds in every run. The files named after outcomes, routing and usage
say what each operation answers and leaves in terms of the rows, frames, times and events it was given,
without the functions that the specification itself is built from. A run is a sequence of states and of operations,
with no bound on either and no order imposed beyond what an operation itself requires.

| files | component |
|---|---|
| `PacingController.dfy`, `PacingRepository.dfy`, `PacingRuns.dfy`, `PacingClimbing.dfy`, `PacingOutcomes.dfy` | pacing of captures per host: feedback rules, transactions, whole runs and purging |
| `CommandIds.dfy`, `DomainBlocking.dfy`, `DomainBlockingInvariant.dfy`, `DomainBlockingRuns.dfy`, `DomainBlockingRouting.dfy` | the session that injects a blocklist command into every target before the client hears of it |
| `Admission.dfy`, `AdmissionInvariant.dfy`, `AdmissionSteps.dfy`, `AdmissionTransactions.dfy`, `AdmissionRuns.dfy`, `AdmissionRates.dfy`, `AdmissionOutcomes.dfy`, `AdmissionUsage.dfy`, `AdmissionRepository.dfy` | sessions, attempts, queues, slots and their event log |
| `FleetReconciler.dfy` | draining and removing instances while admission goes on |
| `Usage.dfy`, `Costs.dfy`, `CostProjection.dfy`, `CostRuns.dfy`, `CostDomains.dfy`, `CostRetention.dfy`, `EventRecorder.dfy`, `RecorderOutcomes.dfy` | what an attempt is charged, how that is spread over its commands and domain, and the ledger under repeated delivery |
| `CdpAccounting.dfy`, `CdpUsage.dfy` | commands in flight, active time and usage per method |
| `ActivityMerge.dfy`, `MergeOutcomes.dfy` | the bounded list of live events and its pause |
| `Common.dfy` | options, minimum and maximum, finite sets and sums |

Assumptions that hold throughout: a transaction is one atomic step that reads one clock, and the clock
never runs backwards. The source also reads it before it holds the row: `acquire` once more than the model,
and `admit`, `heartbeat`, `open`, session `release`, `enqueue`, `claim`, `activate` and `finish` before they
lock, `observe_instances` before it locks the instances; what an early reading can do to a lease is stated in
`AdmissionRuns.EarlyReadingRevives`. One reconciler runs per provider, and no provider's runtime lists an
instance of another. Asynchronous code is split at its awaits. Times are whole microseconds, so `round(spacing * 0.8, 6)` is `(4 * spacing + 2) / 5`, and a duration becomes
milliseconds by rounding half to even. Identifiers that are only compared or sorted are natural numbers.

Some properties one might expect are false of the code, and are stated with the exact condition under
which they hold:

* the cost of a domain counts exactly the charged attempts that name the domain, if and only if no charged
  attempt is given another domain afterwards (`CostDomains.AgreesUnlessMoved`; `CostDomains.LateNavigationHappens`
  is a run in which it fails, and `CostDomains.RowsKeepWhatLeft` says by how much, in every run);
* a deletion by retention keeps the totals of a provider equal to those of its attempts, if and only if the
  deleted domain had none of them, or the attempt of the deleted session was not charged nor settled for anything
  (`CostRetention.TotalSurvivesForgettingDomain`, `CostRetention.TotalsSurviveForgettingAttempt`; reachable
  ledgers where they are lost in `CostRetention.TotalsAreLost` and `CostRetention.CommandTotalsAreLost`);
* leaving a pause shows the latest of all events if and only if the latest of the page's list and buffer are in
  the list or in the buffer as the page last rendered it (`ActivityMerge.ResumeLosesNothing`, with
  `ActivityMerge.FirstEventIsLost`): the callback keeps the buffer of the rendering that made it;
* a moved generation means a moved allowance or cooldown, if and only if it was not moved by a backoff that
  finds concurrency, spacing and cooldown already where it would put them
  (`PacingController.GenerationMeansChange`, `PacingController.SaturatedBackoff`).

Two more fail only at inputs that no caller in the repository produces:

* a reply takes exactly the command it finishes out of the active count, if and only if that is not a
  command received but not yet forwarded while one counted command has the same number
  (`CdpAccounting.FinishCountsTheSame`, `CdpAccounting.UnforwardedReply`); the relay forwards a command
  without an await after receiving it, so its own runs are covered by `CdpAccounting.ActiveTimeIsTheUnion`;
* a limit bounds the merged list if and only if it is not zero or the list is empty
  (`ActivityMerge.BoundedUnlessZero`): a slice from minus zero takes everything; the page passes a thousand,
  or no limit.

## Model

| member | source | states |
|---|---|---|
| `PacingController.AllowanceMoves` | backend/proxy/domain_pacing/controller.py:22-105 | a backoff halves the concurrency (never below one) and doubles the spacing (never above the bound) and cools down as long as the origin asked or the settings say; only a full count of healthy captures raises the allowance, by one more capture or by a spacing shortened to four fifths; every other observation leaves it alone |
| `PacingController.UpdateKeeps` | backend/proxy/domain_pacing/controller.py:22-105 | one observation keeps bounds and sample counts below their thresholds and never shortens a cooldown; it raises the generation by at most one, exactly when it backs off or moves the allowance or the cooldown |
| `PacingController.GenerationMeansChange` | backend/proxy/domain_pacing/controller.py:73-105 | a moved generation means a moved allowance or cooldown if and only if the observation is not a backoff at concurrency one, the greatest spacing and a cooldown already as late as its own |
| `PacingController.SaturatedBackoff` | backend/proxy/domain_pacing/controller.py:93-105 | an input for which it does not: a throttle at that policy moves the generation and nothing that admission looks at |
| `PacingController.StaleObservations` | backend/proxy/domain_pacing/controller.py:34-42 | an observation from an older generation changes no allowance and no sample count; only an explicit throttle can extend the cooldown |
| `PacingController.RunKeeps` | backend/proxy/domain_pacing/controller.py:10-105 | any sequence of resets and observations keeps bounds and sample counts, and never lowers the generation |
| `PacingController.BoundedClimbing` | backend/proxy/domain_pacing/controller.py:38-72 | any run of healthy and neutral observations changes the allowance at most (maximum concurrency - c) + (spacing - minimum, in microseconds) times |
| `PacingController.CountsAreEvidence` | backend/proxy/domain_pacing/controller.py:43-51 | the stored sample counts are exactly the qualifying healthy captures since the last full count, change, refusal or restart |
| `PacingController.IncreaseIsEarned` | backend/proxy/domain_pacing/controller.py:52-61 | every increase completes a full count of qualifying healthy captures since the last change of allowance or refusal; a wider concurrency needs half of them to have pressed against it |
| `PacingRepository.RefreshedRestores` | backend/proxy/domain_pacing/repository.py:120-135 | a due reset (expiry, settings version, operator) restores the defaults, clears the counts, keeps the cooldown and every lease, raises the generation by one and logs it; one that is not due changes nothing |
| `PacingRepository.RefreshedKeeps` | backend/proxy/domain_pacing/repository.py:120-135 | the refreshed row keeps the invariant, its leases, its next start and its cooldown, and is up to date |
| `PacingRepository.AcquireKeeps` | backend/proxy/domain_pacing/repository.py:93-206 | acquire keeps the whole invariant of a host, refused or not: bounds of the governing settings, lease generations at most the row's, the log replaying the row |
| `PacingRepository.LearnedKeeps` | backend/proxy/domain_pacing/repository.py:236-253 | applying an observation keeps the same invariant and logs exactly the changes of generation |
| `PacingRepository.ReleaseKeeps` | backend/proxy/domain_pacing/repository.py:208-261 | release keeps the invariant and removes exactly the released lease |
| `PacingRepository.SoonestExpiry` | backend/proxy/domain_pacing/repository.py:166 | the loop finds the earliest expiry among the leases |
| `PacingRepository.WholeSeconds` | backend/proxy/domain_pacing/repository.py:149-167 | a hint is the least whole number of seconds that covers the delay, and at least one |
| `PacingRepository.Repository.constructor` | backend/proxy/domain_pacing/repository.py:65-77 | fresh tables: the first settings version and no host |
| `PacingRepository.Repository.UpdateSettings` | backend/proxy/domain_pacing/repository.py:84-91 | valid changes add one settings version, invalid ones change nothing; hosts are not touched |
| `PacingRepository.Repository.ResetIfDue` | backend/proxy/domain_pacing/repository.py:120-135 | the in-place reset of a locked row is the specified refresh, and logs it |
| `PacingRepository.Repository.Admit` | backend/proxy/domain_pacing/repository.py:148-190 | the branches of acquire that admit or refuse, in order, with the retry hint of each refusal |
| `PacingRepository.Repository.AcquireLease` | backend/proxy/domain_pacing/repository.py:93-206 | the acquire transaction equals its specification on the tables, keeps the invariant, leaves other hosts alone and hints how long a refused caller should wait |
| `PacingRepository.Repository.Learn` | backend/proxy/domain_pacing/repository.py:236-253 | the learning part of release: policy, next start and log after one observation |
| `PacingRepository.Repository.ReleaseLease` | backend/proxy/domain_pacing/repository.py:208-261 | the release transaction equals its specification, keeps the invariant and leaves other hosts alone |
| `PacingRepository.Repository.RequestHostReset` | backend/proxy/domain_pacing/repository.py:308-315 | flags a known host and nothing else; false for an unknown one |
| `PacingRepository.Repository.Purge` | backend/workers/maintenance/retention.py:86-115 | deletes only stale rows, at most a batch, all of them if the batch is not full, and changes no other row |
| `PacingRuns.RunOk` | backend/proxy/domain_pacing/repository.py:93-315 | in every run of acquires, releases, resets, settings changes and purges the invariant of the host holds |
| `PacingRuns.GenerationMonotone` | backend/proxy/domain_pacing/repository.py:120-135 | while a row lives its generation never falls |
| `PacingRuns.LeaseOrigin` | backend/proxy/domain_pacing/repository.py:177-187 | every lease traces back to its admission, on a row that has lived since and had the lease's generation then |
| `PacingRuns.CooldownPersists` | backend/proxy/domain_pacing/controller.py:79-92 | a cooldown stays in force until the clock has passed it, through resets, settings changes and purges |
| `PacingRuns.AdmissionWaits` | backend/proxy/domain_pacing/repository.py:148-151 | no capture is admitted before the cooldown in force has ended |
| `PacingRuns.BackoffMoves` | backend/proxy/domain_pacing/controller.py:82-105 | a backoff is caused by a lease of the row's present generation, moves the generation on and cools the host down as long as is owed |
| `PacingRuns.NoCascade` | backend/proxy/domain_pacing/controller.py:73-105 | between any two backoffs of a host the capture whose refusal causes the second was admitted after the first, and no earlier than the cooldown the first one set |
| `PacingRuns.SpacingAtAdmission` | backend/proxy/domain_pacing/repository.py:152-156 | consecutive admissions of a host are at least the spacing in force at the earlier one apart |
| `PacingRuns.SpacingAfterAdjustment` | backend/proxy/domain_pacing/repository.py:247-252 | they also keep every spacing that an observation put in force between them |
| `PacingRuns.LeasesWithinConcurrency` | backend/proxy/domain_pacing/repository.py:157-168 | live leases never exceed the concurrency in force at the latest admission, through resets and settings changes |
| `PacingRuns.LogStep` | backend/proxy/domain_pacing/repository.py:37-58 | one step extends the log by as many entries as the generation moves; equal generations mean equal allowance, reason and log |
| `PacingRuns.LogTellsAll` | backend/proxy/domain_pacing/repository.py:37-58 | over a row's life the log only grows, its generations are 1, 2, 3, ... without a gap, and its last entry is the row's allowance and reason |
| `PacingRuns.AlwaysWithinBounds` | backend/proxy/domain_pacing/contracts.py:21-31 | at every point of every run the row is within the bounds and thresholds of the settings version it was written under |
| `PacingClimbing.SamplesAreReleases` | backend/proxy/domain_pacing/repository.py:219-253 | in every run the counts a row stores are the qualifying captures released since it was made, or since the last reset, refusal, full count or change |
| `PacingClimbing.EveryIncreaseIsEarned` | backend/proxy/domain_pacing/controller.py:52-61 | in every run an increase that no reset explains comes from the release of a healthy capture of the present generation that completes a full count of such captures; a wider concurrency needs half of them to have pressed against it |
| `PacingClimbing.ClimbingEnds` | backend/proxy/domain_pacing/controller.py:52-72 | in every run, while a row lives and only healthy and neutral captures are released, its generation moves at most as often as there are concurrency steps and microseconds of spacing to its bounds |
| `PacingRuns.PurgeInvisible` | backend/workers/maintenance/retention.py:88-112 | acquire after a purge decides, and leaves concurrency, spacing, expiry and next start, as acquire without the purge would, then or at any later time |
| `PacingRuns.PurgeForgetsHistory` | backend/workers/maintenance/retention.py:113-114 | what a purge does lose is generation and log: a kept row counts on, a purged one starts again |
| `PacingOutcomes.RefusalCools` | backend/proxy/domain_pacing/controller.py:76-92 | every throttle, also of an older generation, and every overload that completes a count cools the host down as long as the origin asked, up to a year, or as long as the settings say where it asked nothing usable; never shorter than before, and no longer than that |
| `PacingOutcomes.OnlyRefusalsCool` | backend/proxy/domain_pacing/controller.py:32-75 | no other observation touches the cooldown |
| `PacingOutcomes.NoneAdmittedAfterRefusal` | backend/proxy/domain_pacing/controller.py:76-81 | in every run no capture is admitted after a heard refusal for as long as it is owed, through resets, settings changes, purges and other feedback |
| `PacingOutcomes.ShortenedByAFifth` | backend/proxy/domain_pacing/controller.py:61 | shortening takes a fifth off, to the nearest microsecond |
| `PacingOutcomes.QualifyingPays` | backend/proxy/domain_pacing/controller.py:43-72 | a qualifying capture is counted, renews the lifetime, and on a full count widens the concurrency by one or shortens the spacing, by whether half of the count pressed and there is room |
| `PacingOutcomes.EveryFullCountPays` | backend/proxy/domain_pacing/controller.py:52-61 | in every run the release that completes a full count of those released before it raises the allowance, as far as there is room |
| `PacingOutcomes.OverloadIsNoted` | backend/proxy/domain_pacing/controller.py:73-75 | an overload short of a full count is noted and takes the healthy counts with it; a healthy capture outside a cooldown takes the overloads with it; a neutral one changes nothing |
| `PacingOutcomes.ChangeIsExplained` | backend/proxy/domain_pacing/controller.py:62-105 | an update that moves the generation writes the reason that fits its outcome and its time; any other keeps both |
| `PacingOutcomes.OverloadsAreReleases` | backend/proxy/domain_pacing/controller.py:73-75 | in every run the overloads a row counts are the overloads reported in a row under the generation in force |
| `PacingOutcomes.OverloadBackoffIsEarned` | backend/proxy/domain_pacing/controller.py:73-75 | in every run an overload backs off if and only if it completes a full count of such overloads and is of the present generation |
| `PacingOutcomes.LearnedLasts` | backend/proxy/domain_pacing/controller.py:50 | in every run an allowance that was confirmed lives on, under the same settings, for its whole lifetime unless it is reset before |
| `PacingOutcomes.AgedOutOnlyLater` | backend/proxy/domain_pacing/repository.py:120-123 | so it is reset for its age, or purged, only when that lifetime has passed |
| `PacingOutcomes.AdmittedWithRoom` | backend/proxy/domain_pacing/repository.py:136-168 | acquire admits if and only if the cooldown and the spacing of the row it found have passed and fewer captures are live than the host is allowed, by what it learned or, where a reset is due, by default; otherwise it refuses for the first of the three that fails |
| `PacingOutcomes.AdmissionGrants` | backend/proxy/domain_pacing/repository.py:169-190 | an admitted capture gets a lease for the time it asks for, with the generation in force and the mark of concurrency pressure if it fills the allowance beside others; the next start is one spacing away |
| `PacingOutcomes.SpacingPresses` | backend/proxy/domain_pacing/repository.py:170-184 | besides that a lease presses exactly if the last start is at most one and a half spacings ago, or a refusal for spacing is that recent or at most two seconds old |
| `PacingOutcomes.RefusalLeaves` | backend/proxy/domain_pacing/repository.py:148-167 | a refusal leaves its instant if it was for spacing, a mark on every live lease if it was for concurrency, and nothing else |
| `PacingOutcomes.ReleaseTeaches` | backend/proxy/domain_pacing/repository.py:219-246 | a release teaches exactly what its observation says, with the marks and generation of its lease, if the lease has not expired; otherwise nothing; the lease goes in any case |
| `PacingOutcomes.PurgedWhenIdle` | backend/workers/maintenance/retention.py:88-112 | a row is purged if and only if its allowance, its cooldown, its spacing and all its leases have run out |
| `PacingOutcomes.ResetIsServed` | backend/proxy/domain_pacing/repository.py:308-315 | a reset the operator asked for is served by the next transaction, restores the defaults and keeps cooldown and leases |
| `PacingOutcomes.FirstMet` | backend/proxy/domain_pacing/repository.py:104-115 | a host met for the first time starts with the defaults for their whole lifetime and may start at once |
| `PacingOutcomes.LeaseLasts` | backend/proxy/domain_pacing/repository.py:177-187 | in every run an admitted capture holds its place until it gives it back or its time is up, through resets, purges and settings changes |
| `CommandIds.FreeId` | backend/proxy/transport/domain_blocking.py:193-202 | the downward search ends, at the first id that neither a client command nor an internal one holds |
| `DomainBlockingInvariant.StepKeeps` | backend/proxy/transport/domain_blocking.py:71-272 | every step keeps client and internal ids apart, exactly the unconfigured targets withheld, and at most one terminal value, last in the queue |
| `DomainBlocking.DomainBlockingSession.Send` | backend/proxy/transport/domain_blocking.py:71-89 | a client command raises once the session has failed, waits while an internal command holds its key, and is registered otherwise |
| `DomainBlocking.DomainBlockingSession.ResumeSend` | backend/proxy/transport/domain_blocking.py:78-82 | a waiting send looks at its key again and registers once it is free, also after a failure |
| `DomainBlocking.DomainBlockingSession.RouteUpstreamMessage` | backend/proxy/transport/domain_blocking.py:143-170 | one upstream frame is routed as specified: internal reply, attachment, withheld message or delivery |
| `DomainBlocking.DomainBlockingSession.ContinueRouting` | backend/proxy/transport/domain_blocking.py:164-170 | the pump resumes after its yield and settles the attach event |
| `DomainBlocking.DomainBlockingSession.BeginTargetConfiguration` | backend/proxy/transport/domain_blocking.py:172-188 | a target attached for the first time is withheld, gets a buffer and a task; a second attachment changes nothing |
| `DomainBlocking.DomainBlockingSession.StartConfiguration` | backend/proxy/transport/domain_blocking.py:190-210 | the configuration task takes the first free id at or below the counter and registers its reply |
| `DomainBlocking.DomainBlockingSession.SecureTarget` | backend/proxy/transport/domain_blocking.py:234-238 | securing releases the target's buffer to the client in order and forgets the internal command |
| `DomainBlocking.DomainBlockingSession.BeginFailClosed` | backend/proxy/transport/domain_blocking.py:240-252 | failing closed cancels pump and tasks at once, and happens once |
| `DomainBlocking.DomainBlockingSession.DrainAfterFailure` | backend/proxy/transport/domain_blocking.py:257-261 | everything withheld or queued is dropped before the failure is reported |
| `DomainBlocking.DomainBlockingSession.FinishFailClosed` | backend/proxy/transport/domain_blocking.py:264-266 | the failure is then queued, once, as the terminal value |
| `DomainBlocking.DomainBlockingSession.ResumeConfiguration` | backend/proxy/transport/domain_blocking.py:211-222 | a configuration that cannot be sent, times out or is answered with an error fails closed; only an answer without error secures the target |
| `DomainBlocking.DomainBlockingSession.FailConfiguration` | backend/proxy/transport/domain_blocking.py:221-222 | the failing step of a configuration task |
| `DomainBlocking.DomainBlockingSession.ForgetCommand` | backend/proxy/transport/domain_blocking.py:85-89 | a command that could not be sent gives its key back |
| `DomainBlocking.DomainBlockingSession.NextItem` | backend/proxy/transport/domain_blocking.py:91-99 | the client reads the queue in order |
| `DomainBlocking.DomainBlockingSession.FinishClose` | backend/proxy/transport/domain_blocking.py:117 | a close that completes queues the end, once |
| `DomainBlocking.DomainBlockingSession.UnwindTask` | backend/proxy/transport/domain_blocking.py:218-232 | a cancelled task gives its key back |
| `DomainBlocking.DomainBlockingSession.StopPump` | backend/proxy/transport/domain_blocking.py:130-141 | when upstream ends or breaks the session fails closed if a target is unconfigured, and ends normally otherwise |
| `DomainBlocking.DomainBlockingSession.Close` | backend/proxy/transport/domain_blocking.py:101-112 | a close cancels pump and tasks and happens once |
| `DomainBlocking.DomainBlockingSession.PutTerminal` | backend/proxy/transport/domain_blocking.py:268-272 | a terminal value is queued only if none was before |
| `DomainBlockingRuns.OnlyDelays` | backend/proxy/transport/domain_blocking.py:143-238 | in every run that has not failed, for every target, what was queued for the client and then what is withheld is exactly what was received, in order; only replies to internal commands are kept back |
| `DomainBlockingRuns.HistoryIsWhatArrived` | backend/proxy/transport/domain_blocking.py:143-170 | the recorded history of a run is what its operations brought: every frame but those that are no objects and replies to internal commands, each under the target it named when it came, which DomainBlockingRouting.TargetIsConcerned tells by its members |
| `DomainBlockingRuns.DeliveredIsWhatArrived` | backend/proxy/transport/domain_blocking.py:143-238 | in a run that has not failed, what was queued for a target and then what is withheld is exactly what the operations brought for it, in order, and nothing they brought is unaccounted for |
| `DomainBlockingRuns.OnlySecuringReleases` | backend/proxy/transport/domain_blocking.py:166-170 | while a target is withheld no step but securing it queues one of its messages |
| `DomainBlockingRuns.WithheldUntilSecured` | backend/proxy/transport/domain_blocking.py:172-188 | from its attachment on a target stays withheld until it is secured or everything is dropped |
| `DomainBlockingRuns.NothingBeforeBlocking` | backend/proxy/transport/domain_blocking.py:190-238 | nothing sorted to a blockable target is queued for the client before its own blocklist command was answered without error; by their own members those frames are told in DomainBlockingRouting.NamedFramesWaitForBlocking |
| `DomainBlockingRuns.AnswerOrigin` | backend/proxy/transport/domain_blocking.py:150-157 | an answered internal command was answered by an upstream reply with its key, registered ever since |
| `DomainBlockingRuns.NamedByIdWaits` | backend/proxy/transport/domain_blocking.py:315-335 | a browser-level event or response that names a withheld target by its id goes to the end of that target's buffer, behind the attach event |
| `DomainBlockingRuns.RepliesReachTheirRequester` | backend/proxy/transport/domain_blocking.py:150-160 | a reply to an internal command resolves that command and nothing else; any other reply is passed on and frees its client command |
| `DomainBlockingRuns.InFlightCommandsKeepTheirKey` | backend/proxy/transport/domain_blocking.py:78-89 | a client command keeps its key, and the interposer never takes it, until its reply or its send failure |
| `DomainBlockingRuns.NothingAfterRefusal` | backend/proxy/transport/domain_blocking.py:213-222 | after an error reply to a target's blocklist command no message of that target is released, in that step or any later one, however pump, tasks and close interleave |
| `DomainBlockingRuns.TroubleFailsClosed` | backend/proxy/transport/domain_blocking.py:132-141 | a failing configuration, a broken frame or the end of upstream while a target is unconfigured fails the session closed, and then no target can be secured |
| `DomainBlockingRuns.FailsForGood` | backend/proxy/transport/domain_blocking.py:240-266 | after a failure no message of any target is ever queued again; the client gets at most the one error |
| `DomainBlockingRuns.EndsAtMostOnce` | backend/proxy/transport/domain_blocking.py:268-272 | over every run a terminal value is queued at most once and nothing after it |
| `DomainBlockingRouting.OnlyAnnouncementsAttach` | backend/proxy/transport/domain_blocking.py:299-313 | a frame begins to configure a target if and only if its own members announce it: the method, one of the seven kinds and a session id; the target is then withheld with an empty buffer and its id leads to its session |
| `DomainBlockingRouting.FramesWaitForTheirSession` | backend/proxy/transport/domain_blocking.py:315-335 | any other frame joins the end of the buffer of the withheld session that its own members name, in the frame, its params or its result; if they name none that is withheld it is queued at once |
| `DomainBlockingRouting.NamedSessionWaits` | backend/proxy/transport/domain_blocking.py:315-326 | in particular a frame that names a withheld session by its session id is not queued but buffered |
| `DomainBlockingRouting.TargetIsConcerned` | backend/proxy/transport/domain_blocking.py:315-335 | the target of a frame is the session named first by the frame, its params or its result, by session id or by the id of the target attached as it |
| `DomainBlockingRouting.RepliesCarryTheirKey` | backend/proxy/transport/domain_blocking.py:150-160 | a frame with session and number of an internal command answers it, with its own error flag, and does nothing else; any other frame answers none and frees the client's key it carries |
| `DomainBlockingRouting.SendsRegisterTheirKey` | backend/proxy/transport/domain_blocking.py:71-84 | a client command is registered under the session and number it carries |
| `DomainBlockingRouting.KeysComeAndGo` | backend/proxy/transport/domain_blocking.py:78-89 | a waiting command registers once its key is free, and a failed send gives its key back |
| `DomainBlockingRouting.NumbersAreUsedOnce` | backend/proxy/transport/domain_blocking.py:193-203 | in every run of two commands of the interposer the later one has the lower number, so no number is used twice |
| `DomainBlockingRouting.EndIsReported` | backend/proxy/transport/domain_blocking.py:130-141 | while no target is withheld the end of upstream reaches the client as it is, and a broken frame as an error; a close ends quietly, a failure with an error, each unless an end was told before |
| `DomainBlockingRouting.ClosingStops` | backend/proxy/transport/domain_blocking.py:101-112 | once a close has begun no frame is read and no target starts or is secured |
| `DomainBlockingRouting.FiledInRun` | backend/proxy/transport/domain_blocking.py:164-170 | in every run whatever is queued or withheld stands under the session that its own members name |
| `DomainBlockingRouting.NamedFramesWaitForBlocking` | backend/proxy/transport/domain_blocking.py:143-238 | in every run a frame that names a session by its session id and is queued after that session was announced was preceded by an upstream reply without error to that session's blocklist command |
| `DomainBlockingRouting.LastAttachmentNames` | backend/proxy/transport/domain_blocking.py:180-184 | in every run a target id leads to the session of the last attachment that named it |
| `DomainBlockingRouting.UnnamedLeadsNowhere` | backend/proxy/transport/domain_blocking.py:334-335 | an id that no attachment has named leads nowhere |
| `AdmissionTransactions.StepInv` | backend/proxy/postgres/attempts.py:46-303 | every transaction of sessions, attempts and fleet keeps the invariant of the tables and of the event log |
| `AdmissionTransactions.StepAdvances` | backend/proxy/postgres/sessions.py:103-115 | no transaction rewrites an ended row, revives an expired lease or makes an attempt hold a slot, except the one it grants |
| `AdmissionRuns.RunInv` | backend/proxy/postgres/attempts.py:354-390 | the invariant holds in every reachable state |
| `AdmissionRuns.NothingLeaks` | backend/proxy/postgres/sessions.py:134-189 | in every reachable state an ended session has no live attempt and a session at most two; each attempt logs at most one connected event and exactly one terminal event once it has ended; so does a session, and nothing of it is logged afterwards |
| `AdmissionRuns.EndedRowsAreFinal` | backend/proxy/postgres/sessions.py:146-178 | ended sessions and attempts never change again |
| `AdmissionRuns.LeasesStayExpired` | backend/proxy/postgres/sessions.py:107-113 | a lease that has run out is never live again |
| `AdmissionRuns.EarlyReadingRevives` | backend/proxy/postgres/sessions.py:105-114 | with a clock read before the row is locked a heartbeat can revive a lease that ran out in between, exactly if the lease was live at the reading and the new one is not over yet |
| `AdmissionRuns.FinishedIsChargeable` | backend/proxy/postgres/attempts.py:222-231 | in every run the browser time of an ended attempt is within the time it is charged for, and its cost is that time at its rate, rounded up |
| `AdmissionRuns.GrantFindsRoom` | backend/proxy/postgres/attempts.py:412-450 | a grant goes to a ready instance with a slot free |
| `AdmissionRuns.SlotsNeverOversubscribed` | backend/proxy/postgres/attempts.py:412-450 | live attempts on an instance never exceed its capacity while no observation lowers that capacity |
| `AdmissionRuns.LimitsNeverExceeded` | backend/proxy/postgres/attempts.py:195-216 | in every run in which no configuration lowers it, the live attempts of an external provider stay within its limit |
| `AdmissionRuns.SessionsBounded` | backend/proxy/postgres/sessions.py:77-101 | live sessions never exceed max_active |
| `AdmissionRuns.GrantServesHead` | backend/proxy/postgres/attempts.py:175-188 | a grant serves the head of the provider's queue, or a newcomer that found the queue empty |
| `AdmissionRuns.NoOvertaking` | backend/proxy/postgres/attempts.py:122-140 | when an attempt is granted, every earlier one of its provider has been granted, has ended, or has lost its session's lease |
| `AdmissionRuns.NeverOvertaken` | backend/proxy/postgres/attempts.py:122-140 | the same at every grant of every run |
| `AdmissionRuns.QueueOnlyAdvances` | backend/proxy/postgres/attempts.py:165-219 | the live attempts queued ahead of a waiting one only ever become fewer, and fall with each grant |
| `AdmissionRuns.EveryGrantBringsItForward` | backend/proxy/postgres/attempts.py:165-219 | in every run, while an attempt waits, the attempts ahead of it and the grants made since are together no more than were ahead at first |
| `AdmissionRates.RatesInRun` | backend/proxy/postgres/usage.py:33-38 | in every run no cost rate is negative, nor any rate an attempt was charged at |
| `AdmissionRepository.Gateway.AdmitNew` | backend/proxy/postgres/sessions.py:50-101 | admission sweeps expired sessions, then admits or refuses by the number of live ones |
| `AdmissionRepository.Gateway.RenewLease` | backend/proxy/postgres/sessions.py:103-115 | a heartbeat extends a live lease of its owner and nothing else |
| `AdmissionRepository.Gateway.OpenSession` | backend/proxy/postgres/sessions.py:117-132 | opens an admitted session with a live lease, and logs it |
| `AdmissionRepository.Gateway.ReleaseSession` | backend/proxy/postgres/sessions.py:134-189 | release ends the session's live attempts and then the session, unless it had ended |
| `AdmissionRepository.Gateway.ExpireStaleSessions` | backend/proxy/postgres/sessions.py:237-281 | the sweep ends exactly the sessions whose lease ran out and their live attempts |
| `AdmissionRepository.Gateway.EnqueueAttempt` | backend/proxy/postgres/attempts.py:46-152 | enqueue sweeps, checks its session and the attempt it replaces, and then grants, queues or refuses the new attempt |
| `AdmissionRepository.Gateway.SelectInstance` | backend/proxy/postgres/attempts.py:412-450 | the loop over instances chooses a ready, fresh one with a slot free, if there is any |
| `AdmissionRepository.Gateway.ClaimAttempt` | backend/proxy/postgres/attempts.py:154-220 | claim sweeps and grants the attempt if it heads its queue and there is room |
| `AdmissionRepository.Gateway.ActivateAttempt` | backend/proxy/postgres/attempts.py:222-231 | only an acquiring attempt becomes active, and is logged as connected |
| `AdmissionRepository.Gateway.FinishAttempt` | backend/proxy/postgres/attempts.py:273-303 | a live attempt ends with its usage fixed and one terminal event; an ended one is left alone |
| `AdmissionRepository.Gateway.ExpireStaleAttempts` | backend/proxy/postgres/attempts.py:354-390 | the sweep ends exactly a provider's live attempts without a live session |
| `AdmissionRepository.Gateway.ObserveInstances` | backend/fleet/repository.py:168-247 | observations are written row by row, a draining instance does not become ready, and unseen instances stop |
| `AdmissionRepository.Gateway.PrepareToScaleDown` | backend/fleet/repository.py:249-278 | marks the instance draining and says whether no live assignment is on it, in one transaction |
| `AdmissionRepository.Gateway.CancelDrains` | backend/fleet/repository.py:280-296 | draining instances of the provider need a fresh ready observation again; no other instance changes |
| `AdmissionOutcomes.EnqueueOutcome` | backend/proxy/postgres/attempts.py:106-152 | an enqueue that may go ahead is granted if and only if nobody waits and there is room, queued if and only if it is not granted, its provider is enabled and fewer than max_queued live attempts wait, and refused otherwise; one that may not raises and changes nothing |
| `AdmissionOutcomes.EnqueueLeaves` | backend/proxy/postgres/attempts.py:61-152 | it leaves its attempt behind all others in the state it answered, on the fullest instance that offers a slot if it was granted, the provider's attempts without a live lease failed, and all others as they were |
| `AdmissionOutcomes.ClaimOutcome` | backend/proxy/postgres/attempts.py:154-220 | a claim is granted if and only if its session is owned and live, its attempt first in line, there is room, and no limit beside the fleet is switched off; it takes the fullest instance that offers a slot |
| `AdmissionOutcomes.QueueNeverOverflows` | backend/proxy/postgres/attempts.py:136-139 | in every run, while no configuration lowers it, the live attempts that wait for a provider stay within max_queued |
| `AdmissionOutcomes.SweepLeaves` | backend/proxy/postgres/attempts.py:354-390 | the sweep fails exactly the provider's live attempts without a live lease, with reason and time |
| `AdmissionOutcomes.AdmitOutcome` | backend/proxy/postgres/sessions.py:58-101 | an admission fails every session that ran out, and then admits the new one for the time of a lease if and only if fewer than max_active sessions are live; a rejected one is stored and logged as failed |
| `AdmissionOutcomes.ExpiredAttemptsFail` | backend/proxy/postgres/sessions.py:237-281 | the live attempts of the sessions that ran out fail with them, and no others change |
| `AdmissionOutcomes.ExpiryIsLogged` | backend/proxy/postgres/sessions.py:237-281 | each session that ran out is logged as failed |
| `AdmissionOutcomes.HeartbeatOutcome` | backend/proxy/postgres/sessions.py:103-115 | a heartbeat sets the lease to its full time from now if and only if the caller owns the session and its lease is live |
| `AdmissionOutcomes.OpenOutcome` | backend/proxy/postgres/sessions.py:117-132 | open does so too, for a session that is admitted, and logs it |
| `AdmissionOutcomes.ReleaseOutcome` | backend/proxy/postgres/sessions.py:134-189 | a release of a live session by its owner ends it, and all its live attempts, as failed or not as it is told, with the given reason and event |
| `AdmissionOutcomes.LiveHasNoReason` | backend/proxy/postgres/sessions.py:151 | in every run a live session has no terminal reason, so the reason given is the one its attempts get |
| `AdmissionOutcomes.AttemptOutcome` | backend/proxy/postgres/attempts.py:222-303 | an attempt is activated if and only if it has its slot, and finished if and only if it has not ended |
| `AdmissionOutcomes.ObserveOutcome` | backend/fleet/repository.py:168-247 | a seen instance has the state, capacity and time it was seen with, except that a draining one does not become ready; an instance of the fleet that is not seen has stopped |
| `AdmissionOutcomes.ConfigureOutcome` | backend/fleet/repository.py:97-127 | a configuration puts the given fleets, limits and rates in place and touches no session, attempt or instance |
| `AdmissionOutcomes.DrainOutcome` | backend/fleet/repository.py:249-296 | preparing marks the instance draining, so that it offers nothing, and answers whether it is empty; cancelling sends exactly the provider's draining instances back to starting |
| `AdmissionUsage.RoundedToNearest` | backend/proxy/postgres/usage.py:20-28 | a duration becomes the nearest whole millisecond, and the even one of two |
| `AdmissionUsage.EndIsSettled` | backend/proxy/postgres/usage.py:19-38 | in every run a step that ends an attempt, by finish, release, sweep or a full queue, fixes its charge from acquisition to end, its browser time from activation to end, its cost at the rate then in force, and its event |
| `AdmissionUsage.ChargedForItsTime` | backend/proxy/postgres/usage.py:19-30 | over every run an ended attempt is charged to within half a millisecond for the time from its acquisition to its end, has browser time from its activation to its end, and nothing for what never began; the log tells its end |
| `AdmissionUsage.CostedAtItsEnd` | backend/proxy/postgres/usage.py:33-38 | over every run an acquired attempt has a cost if and only if its provider had a rate at the step that ended it: that rate times the charged time, to the next unit |
| `FleetReconciler.PreparedIsDrained` | backend/fleet/repository.py:249-278 | when the check says safe, the instance is draining and nobody with a live lease is on it |
| `FleetReconciler.DrainedStep` | backend/proxy/postgres/attempts.py:412-450 | no transaction of anybody else puts an attempt on a drained instance or changes its state |
| `FleetReconciler.DrainedForGood` | backend/fleet/reconciler.py:104-126 | a drained instance stays empty through any interleaving of admissions, enqueues, claims, heartbeats and other fleets |
| `FleetReconciler.InterferenceKeeps` | backend/fleet/reconciler.py:71-226 | any interleaving of others' transactions keeps the invariant of the tables |
| `FleetReconciler.Reconciler.AwaitDrained` | backend/fleet/reconciler.py:106-126 | across the await between drain and removal, during which any transactions of others may run, the instance stays drained |
| `FleetReconciler.Reconciler.Prepare` | backend/fleet/reconciler.py:158-162 | the drain check as the reconciler sees it: its answer, the tables after it, and a drained instance if it says safe |
| `FleetReconciler.Reconciler.Scale` | backend/fleet/reconciler.py:97-135 | one instance less only if there are too many and the candidate has been drained, one more exactly if there are too few, a new configuration exactly if the number is right, an instance is outdated and nobody asks for one; growing and configuring take back every drain |
| `FleetReconciler.Reconciler.Tend` | backend/fleet/reconciler.py:145-194 | an instance whose startup has expired is removed if the drain check says so and is otherwise reported unhealthy; any other is reported ready or starting, by its port |
| `FleetReconciler.Reconciler.Reconcile` | backend/fleet/reconciler.py:71-226 | whenever a pass asks the runtime to remove an instance, on the down and replace paths, no live assignment is on it, with every other transaction interleaved at every await; and a pass that comes to an end leaves each instance of the provider as it saw it: ready only if listed with its port open, stopped if not listed |
| `FleetReconciler.Reconciler.RecordObservations` | backend/fleet/reconciler.py:196-201 | the observations of the pass are recorded as one transaction, or not at all if a capacity is below one |
| `Usage.RoundMsMonotone` | backend/proxy/postgres/usage.py:19-28 | rounding to milliseconds, ties to even, keeps the order of durations |
| `Usage.FinalizedIsChargeable` | backend/proxy/postgres/usage.py:8-38 | usage fixed for an attempt that was acquired before it was active is charged from its acquisition, to half a millisecond, with its browser time from its activation within that, at its rate, rounded up to a unit |
| `Usage.FinalizeAttemptUsage` | backend/proxy/postgres/usage.py:8-38 | the assignments of the source compute the specified usage |
| `Costs.RetainedNames` | backend/workers/maintenance/recorder.py:349-363 | every method goes to its own row or to the shared one, the overhead name always to the shared one, and only a full table makes a method share |
| `Costs.RetainedFit` | backend/workers/maintenance/recorder.py:344-363 | exact rows stay within 511 however methods arrive, and no slot is given up except to the shared name itself |
| `Costs.RetainedCommandMethods` | backend/workers/maintenance/recorder.py:330-363 | the loop over the methods computes the specified assignment |
| `Costs.Attribute` | backend/workers/maintenance/recorder.py:267-323 | the attribution loop and the overhead row compute the specified rows |
| `Costs.SharesFit` | backend/workers/maintenance/recorder.py:274-308 | shares never exceed the browser time or the cost, so the clips at zero never act, and rounding moves less than one millisecond and one cost unit per method to the overhead |
| `Costs.ShareIsProportional` | backend/workers/maintenance/recorder.py:282-290 | each method gets the greatest whole share of browser time in proportion to its provider latency, and of cost in proportion to its browser time |
| `Costs.Conserved` | backend/workers/maintenance/recorder.py:267-323 | the rows of an attempt hold exactly its cost, its browser time and every counter of its commands |
| `Costs.RowsByName` | backend/workers/maintenance/recorder.py:279-323 | each method's row holds exactly the shares retained under its name; the overhead row holds what is left |
| `Costs.TotalMerged` | backend/workers/maintenance/recorder.py:410-462 | the upsert adds: a table after it holds what it held and what was added |
| `CostProjection.RedeliveryChangesNothing` | backend/workers/maintenance/recorder.py:34-68 | a projection cut short after any prefix and delivered again in full leaves exactly the ledger of one undisturbed projection |
| `CostProjection.AllQuiet` | backend/workers/maintenance/recorder.py:241-247 | after a projection nothing is left to do for any attempt it named |
| `CostProjection.MergedFits` | backend/workers/maintenance/recorder.py:330-363 | whatever methods an attempt brings, the provider's table still has at most 511 exact rows |
| `CostProjection.ProjectAllKeeps` | backend/workers/maintenance/recorder.py:222-247 | every batch moves the totals of a provider by exactly what it adds to the flagged attempts |
| `CostRuns.ExactlyOnce` | backend/workers/maintenance/recorder.py:222-363 | in every run, with any deliveries and any deletions by retention in between, a provider's command rows hold the cost and browser time of exactly its settled attempts, present and deleted; its domain costs, present and deleted, are those of exactly its charged attempts, present and deleted; and it has at most 512 rows besides overhead |
| `CostRuns.TotalsOfAttempts` | backend/workers/maintenance/recorder.py:222-363 | while retention has deleted nothing the totals are those of the attempts that are there |
| `CostRuns.ReportStands` | backend/workers/maintenance/recorder.py:250-328 | in every run what an attempt reported when it finished stands while it is there: its usage for good, its command summary until it is settled |
| `CostRuns.SettledForGood` | backend/workers/maintenance/recorder.py:255-256 | as long as an attempt is there its flags are never taken back and, once finished, its usage never changes |
| `CostRuns.EveryEndIsConserved` | backend/workers/maintenance/recorder.py:267-323 | for an attempt ended in any run of the admission tables the rows hold exactly its cost and its browser time |
| `CostDomains.AgreesUnlessMoved` | backend/workers/maintenance/recorder.py:241-247 | projecting an attempt keeps the per-domain costs true to the attempts' domains if and only if it does not rename the domain of an attempt already charged |
| `CostDomains.RenamingKeepsRows` | backend/workers/maintenance/recorder.py:242-244 | renaming the domain of a charged attempt leaves every domain row as it is |
| `CostDomains.RowsKeepWhatLeft` | backend/workers/maintenance/recorder.py:241-247 | in every run, retention included, the row of a domain holds, beyond the charged attempts naming it, exactly the charges that renamed and deleted attempts left there less those that renamed attempts owe it; it agrees with its attempts if and only if these come to nothing |
| `CostDomains.AgreesInRun` | backend/workers/maintenance/recorder.py:464-498 | in every run that renames and deletes no charged attempt each domain row counts and sums exactly the charged attempts that name the domain |
| `CostDomains.LateNavigation` | backend/workers/maintenance/recorder.py:242-244 | in the run of one attempt that is charged and then renamed by a later navigation, the old domain keeps the whole charge, the new one has none, and the rows disagree with the attempts |
| `CostDomains.LateNavigationHappens` | backend/workers/maintenance/recorder.py:242-244 | that run exists for every attempt with a known cost: these are its five ledgers |
| `CostDomains.LateNavigationExists` | backend/workers/maintenance/recorder.py:242-244 | and so there is one |
| `CostRetention.ForgettingDomainKeeps` | backend/workers/maintenance/retention.py:63-70 | deleting a domain with its costs leaves the command totals and every domain's costs true to the attempts |
| `CostRetention.TotalSurvivesForgettingDomain` | backend/workers/maintenance/retention.py:63-70 | the domain total of a provider stays the cost of its charged attempts if and only if the deleted domain had none of it |
| `CostRetention.TotalsSurviveForgettingAttempt` | backend/workers/maintenance/retention.py:49-61 | after a session is deleted the totals stay sums over the attempts left if and only if the deleted attempt was not charged, and not settled for anything |
| `CostRetention.TotalsAreLost` | backend/workers/maintenance/retention.py:49-70 | a reachable ledger for both deletions: one charged attempt, and its domain or its session deleted |
| `CostRetention.CommandTotalsAreLost` | backend/workers/maintenance/retention.py:49-61 | and one for the command totals: a settled attempt of some cost, and its session deleted |
| `EventRecorder.DeliverySettles` | backend/workers/maintenance/recorder.py:56-63 | after a full delivery every finished attempt it reports on is settled, whether or not its events had been recorded before |
| `EventRecorder.OnlyNeeded` | backend/workers/maintenance/recorder.py:70-74 | leaving out events that need no projection changes no projection |
| `EventRecorder.Recorder.ProjectAttemptCost` | backend/workers/maintenance/recorder.py:464-498 | the domain cost is charged once, when domain and cost are known |
| `EventRecorder.Recorder.ProjectCommandSummary` | backend/workers/maintenance/recorder.py:249-328 | the summary of a finished attempt is settled once and then dropped |
| `EventRecorder.Recorder.ProjectAttempts` | backend/workers/maintenance/recorder.py:222-247 | batches of 25, in id order, project exactly the ids they reached |
| `EventRecorder.Recorder.InsertEvents` | backend/workers/maintenance/recorder.py:37-62 | an event is inserted once by its id and projected every time; the count is of the new ones |
| `EventRecorder.Recorder.Record` | backend/workers/maintenance/recorder.py:34-68 | a delivery interrupted after any number of batches leaves the projection of exactly the attempts it reached |
| `EventRecorder.DeliverAgain` | backend/workers/maintenance/recorder.py:34-68 | an interrupted delivery made again in full records nothing twice and leaves the ledger of one undisturbed delivery |
| `RecorderOutcomes.LastNavigationWins` | backend/workers/maintenance/recorder.py:104-142 | the last navigation response of an attempt in a delivery names its domain |
| `RecorderOutcomes.DeliveryNames` | backend/workers/maintenance/recorder.py:222-243 | after a delivery an attempt has the domain of its last navigation response in it, and the one it had if there is none |
| `RecorderOutcomes.DeliveryCharges` | backend/workers/maintenance/recorder.py:85-97 | a delivery settles a finished attempt on which an event of its own reports, charges a navigated one once its cost is known, and changes no attempt that no event names |
| `RecorderOutcomes.PassedOn` | backend/workers/maintenance/recorder.py:70-74 | an event is projected if and only if it has a URL or reports on an attempt |
| `RecorderOutcomes.ExistingKeepsItsRow` | backend/workers/maintenance/recorder.py:330-364 | a method that has a row already goes on in that row, whatever else the attempt ran |
| `RecorderOutcomes.BillIsTheUsage` | backend/workers/maintenance/recorder.py:267-300 | the shares are of the attempt's own browser time and cost, in the proportion browser time has to the time charged for |
| `RecorderOutcomes.UpsertAddsByName` | backend/workers/maintenance/recorder.py:411-462 | the upsert adds name by name and column by column |
| `CdpAccounting.FinishCountsTheSame` | backend/events/cdp.py:413-432 | a reply stops counting the very command it finishes if and only if it is not for a command received but not yet forwarded while exactly one counted command has its number |
| `CdpAccounting.UnforwardedReply` | backend/events/cdp.py:428-432 | such a reply leaves a command in flight that is no longer counted |
| `CdpAccounting.ActiveTimeIsTheUnion` | backend/events/cdp.py:51-72 | with receiving and forwarding as one step, pending and counted commands are the same, as many as the counter says, and the active time is the length of the union of all flights |
| `CdpAccounting.SnapshotAddsUp` | backend/events/cdp.py:67-90 | the clips of a snapshot never act: active and idle milliseconds add up to the observed ones |
| `CdpAccounting.RunEdges` | backend/events/cdp.py:51-65 | in every run the first command mark is the first beginning of a flight and the last command mark the last end |
| `CdpAccounting.QuietOutsideTheMarks` | backend/events/cdp.py:78-87 | nothing is in flight before the first mark, nor, while nothing is pending, from the last mark on |
| `CdpAccounting.TimesAddUp` | backend/events/cdp.py:433-443 | duration, provider latency and queue time are each within half a millisecond of receipt to end, forwarding to end and receipt to forwarding, and the latter two add up to the first within a millisecond |
| `CdpAccounting.CountsAreEndings` | backend/events/cdp.py:458-472 | per-method counts sum to the finished commands, and likewise for failed and interrupted ones |
| `CdpAccounting.SummaryIsAttributable` | backend/events/cdp.py:463-472 | a summary has at most 256 methods and no negative latency, which is what the cost ledger relies on |
| `CdpAccounting.InterruptEmpties` | backend/events/cdp.py:404-411 | interrupting a list of pending commands removes exactly those, in any order |
| `CdpAccounting.CdpEventObserver.CommandReceived` | backend/events/cdp.py:197-221 | a command becomes pending under its session and number |
| `CdpAccounting.CdpEventObserver.CommandForwarded` | backend/events/cdp.py:223-238 | forwarding stamps a pending command and starts counting it once |
| `CdpAccounting.CdpEventObserver.Find` | backend/events/cdp.py:579-598 | the key of a reply: the exact one, or without a session the only one with that number |
| `CdpAccounting.CdpEventObserver.FinishCommand` | backend/events/cdp.py:413-472 | a finish removes the command from both maps, stops the counter and records its times under its method |
| `CdpAccounting.CdpEventObserver.InterruptPending` | backend/events/cdp.py:404-411 | every pending command is interrupted and both maps end empty |
| `CdpAccounting.CdpEventObserver.PhaseSummary` | backend/events/cdp.py:67-90 | the snapshot of the phase counters |
| `CdpUsage.ReplyFinds` | backend/events/cdp.py:579-598 | a reply is for the command it names by session and number, or without a session for the only one with its number |
| `CdpUsage.StepEnds` | backend/events/cdp.py:404-426 | a reply ends the command it answers, an interruption the command it names, a handed over command none |
| `CdpUsage.ForwardingStamps` | backend/events/cdp.py:223-238 | forwarding stamps a pending command with the time and counts it if it is not counted |
| `CdpUsage.PendingIsLatest` | backend/events/cdp.py:197-238 | in every run what is pending has the name and the times of the last command handed over under its key |
| `CdpUsage.RowsTellTheRun` | backend/events/cdp.py:433-472 | over every run each method's row counts the commands that ended under it, by outcome, and its duration, provider latency and queue time are, to half a millisecond a command, the sums of receipt to end, forwarding to end and receipt to forwarding |
| `CdpUsage.SnapshotTellsTheEdges` | backend/events/cdp.py:78-87 | a snapshot tells, to half a millisecond, the wait for the first command and the time since the last end |
| `ActivityMerge.MergeEvents` | admin/src/lib/activity-stream.ts:66-87 | fills the map from both lists, later entries winning, sorts and slices |
| `ActivityMerge.OrderedSorts` | admin/src/lib/activity-stream.ts:80-85 | the sort by time and id is strict and keeps every event once |
| `ActivityMerge.LatestOfLatest` | admin/src/lib/activity-stream.ts:86 | what was dropped before never comes back: the latest of the latest and some more are the latest of all |
| `ActivityMerge.StreamIsBatch` | admin/src/lib/activity-stream.ts:66-87 | for a limit of at least one, merging batch by batch equals the last events of one unlimited merge, sorted and without duplicates |
| `ActivityMerge.BoundedUnlessZero` | admin/src/lib/activity-stream.ts:86 | the limit bounds the list if and only if it is not zero or there is nothing to show |
| `ActivityMerge.LiveShowsLatest` | admin/src/components/activity-page.tsx:309-334 | a page that is not paused shows the latest of all events that ever arrived, if every pause was left with its buffer rendered |
| `ActivityMerge.PausingLosesNothing` | admin/src/components/activity-page.tsx:342-358 | a page that is resumed right after a rendering shows the latest of all of them |
| `ActivityMerge.ResumeLosesNothing` | admin/src/components/activity-page.tsx:342-358 | resuming shows the latest of all that arrived if and only if the latest of the page's list and buffer are all in the list or in the buffer as last rendered |
| `ActivityMerge.LateEventIsLost` | admin/src/components/activity-page.tsx:342-358 | an event that arrives in a pause after the last rendering is not in the list when the pause is left |
| `MergeOutcomes.MergeShowsLastEntries` | admin/src/lib/activity-stream.ts:66-85 | an unlimited merge shows the last valid entry of each id from either list and no other, by time and at one time by id |
| `MergeOutcomes.LimitKeepsTheLast` | admin/src/lib/activity-stream.ts:86 | a limit keeps the last so many of them; zero keeps all, and a negative one leaves out the first |
| `ActivityMerge.FirstEventIsLost` | admin/src/components/activity-page.tsx:342-358 | an input for which that happens: the first event of a pause, before the page is rendered again |
| `ActivityMerge.ActivityFeed.OnEvent` | admin/src/components/activity-page.tsx:311-334 | an event is merged into the buffer while paused and into the live list otherwise |
| `ActivityMerge.ActivityFeed.OnRender` | admin/src/components/activity-page.tsx:342-369 | a rendering makes a new callback that keeps the buffer of that moment |
| `ActivityMerge.ActivityFeed.TogglePause` | admin/src/components/activity-page.tsx:342-358 | leaving a pause merges the buffer of the last rendering into the live list and empties the buffer |

## Left out

- SQL, row locks, isolation levels and deadlock avoidance: a transaction is an atomic step.
- The pacing request facts (`DomainPacingRequest`) and `list_states`: read-only or write-only records that no decision reads.
- PacingController.UpdateKeeps: spacings are whole microseconds; settings with a finer default, and floating-point error below a microsecond, are not modelled.
- PacingRuns.PurgeInvisible: the purge is stated for one host; which rows a batch takes is in `PacingRepository.Repository.Purge`.
- DomainBlockingRuns.RepliesReachTheirRequester: message text is a datatype with the fields the code looks at; JSON itself and numbers that are booleans in Python are not modelled.
- DomainBlocking.DomainBlockingSession.ResumeSend: any free key may resume, whether or not a send waits for it, which allows more than the code does; the lock around the ids is uncontended; the upstream call itself is not modelled, only its failure.
- DomainBlocking.DomainBlockingSession.FailConfiguration: a timeout or a failed send may come at any time while the task runs.
- DomainBlocking.DomainBlockingSession.FinishFailClosed: closing upstream, which may fail silently before this step, is not modelled; cancelled tasks may unwind in any order, which allows more than the code does.
- The pattern lists of domain blocking (IDNA, base64 of the policy) and the bootstrap timer: library code and metrics.
- AdmissionRuns.SessionsBounded: the bound is the greatest `max_active` any admission of the run was given; lowering it does not end sessions.
- AdmissionOutcomes.QueueNeverOverflows: lowering a queue's limit, or disabling its provider, does not end attempts that wait.
- AdmissionRuns.LimitsNeverExceeded: lowering a limit does not end attempts, nor does taking a provider from a managed fleet to a limit.
- AdmissionRuns.LeasesStayExpired: the clock is read at the step; a heartbeat that read it before it had the row is in `AdmissionRuns.EarlyReadingRevives`, and its interleavings are not followed further.
- AdmissionRepository.Gateway.ReleaseSession: the closing state that release passes through inside its own transaction is not stored.
- AdmissionRepository.Gateway.AdmitNew: requested settings, workload, client reference and its uniqueness are not modelled.
- Usage.FinalizedIsChargeable: the times a provider reports about itself do not enter the charge and are not modelled.
- FleetReconciler.Reconciler.Reconcile: the configure path rescales on an earlier reading of demand and drains nothing, so no safety is claimed for it; `runtime.scale` down is taken to remove exactly the scale-down candidate.
- FleetReconciler.Reconciler.Scale: the desired count comes from the scaling policy (`evaluate`), which is a parameter here; that a drained instance returns to service is not claimed, and is not always so.
- The latency bookkeeping of the reconciler (`_bind_scale_requests`, `_lifecycle_latencies`, `_known_instances`): metrics only.
- Costs.Attribute: first and last sighting of a row are not modelled.
- EventRecorder.Recorder.InsertEvents: of an event only its id and what decides its projection are kept.
- The domain facts (`_project_domain_facts`): first and last sighting and the number of sessions of a domain; the row of a host is taken as given.
- CostProjection.MergedFits: projections of one provider are atomic; two of them that read the table at once could pass the bound.
- CdpAccounting.ActiveTimeIsTheUnion: one attempt per observer, until its summary is flushed; clock readings are whole microseconds that never decrease.
- CdpAccounting.CdpEventObserver.InterruptPending: all interruptions of one call carry one clock reading, and the emitted events are not modelled.
- CdpAccounting.CdpEventObserver.FinishCommand: command sequence, domain, content length and the emitted events are not modelled.
- ActivityMerge.LiveShowsLatest: state updates take effect in the order of their callbacks; one filter; events kept under another filter are ignored by the page until it is chosen again.
- ActivityMerge.OrderedSorts: times are valid and ids are compared as numbers; `localeCompare` is any fixed strict order.
- HTTP routes, websockets, NATS, Prometheus, Docker and Kubernetes calls, the page itself, the capture library and the method cache.
