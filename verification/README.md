# Catworld workers: a verified model

This project models, in Dafny 4.11, four parts of the Catworld server and proves properties of them over all inputs, all
interleavings and all runs.

1. **The worker supervisor** (`src/supervisor/core.ts`, command table in `src/supervisor/db.ts`): it keeps one worker
   process per profile, drains and kills workers, backs off after crashes and carries out operator commands.
2. **The job queue** (`src/worker/claim.ts`, `src/worker/index.ts`, `src/worker/runtime.ts`, capacity promises in
   `src/lib/worker-presets.ts`): many worker processes share one job table.
3. **Decimal text arithmetic** (`src/lib/decimal-type.ts`): fitting, representability and half-up rounding on digits.
4. **Text encodings**: LIKE patterns built from worker labels, and the CSV text of a query result, read back by a reader of
   section 2 of RFC 4180.

`dafny verify dfyconfig.toml` checks everything.

## How it is built

**Supervisor.** `SupervisorModel` is the state machine: one event is what the program does between two awaits, and events of
ticks, commands, child exits and shutdown interleave freely. The operating system is part of the state: live processes with
ids in spawn order, and every signal sent. A STOP or START command is suspended between its lookup and its database write,
holding the slot record it looked up, so a reconcile of an overlapping tick can come in between. `Supervisor` is the program's
own form: mutable slot records in a map, loops that update them, exit callbacks that close over a record.
`Supervisor.Supervisor.Perform` runs any step on it and is proved to be a step of the state machine, so the theorems of
`SupervisorSafety`, `SupervisorOutcomes`, `SupervisorReconcile`, `SupervisorTiming`, `SupervisorBackoff`, `SupervisorSignals`,
`SupervisorExits` and `SupervisorCommands` hold of the object. The last three state in numbers, without the functions of the
machine, which signal a process is sent and when, which exits count as crashes, and what each command leaves behind. `SupervisorStatus` puts the supervisor beside the status column of the command table: the write of DRAINING is a step
of its own, a final status may be lost on the way, and in the end the next supervisor fails what is still open.

**Job queue.** `JobQueue` says what each SQL statement does to a row and to the table, `JobTable.Jobs` runs the statements in
place, `Worker.Worker` is one worker process with its loops and its counter of jobs in hand, and `WorkerFleet` is the
system: any number of profiles, each with a worker process that boots, claims, completes, fails, drains, is told to stop or crashes, over one table, one statement per step. `QueueSafety`, `QueueAttempts` and `QueueTimes` hold whatever
fails; `QueueSlots`, `QueueCapacity`, `CapacityExact` and `PresetPromises` need answers and failures to get through
(`QueueSlots.FaultFree`), and `QueueDrain.TwoJobsUnderOneLabel` shows why. `QueueCapacity` bounds what runs, reads and waits
under any profiles, and `CapacityExact` reaches the bounds, so the promises of the screen can be judged exactly.

**Decimals.** The specification is integer arithmetic: a value is its digits over a power of ten, and rounding is
`floor(|v| * 10^s + 1/2)`. `DecimalType` has the methods, `DecimalTheorems` what they mean.

## Where the code and its documentation differ

The model follows the code. What the proofs bring out:

- `docs/worker-architecture.md` says that a job interrupted by SIGTERM uses up an attempt; `onTerminate` releases it with a
  refund (`src/worker/index.ts:60-73`), so the attempt is given back (`QueueSafety.AttemptsAreStartsLessRefunds`).
- `completeJob` and `fail` look at a job's id and status, not at who holds it. Over a run the attempt limits hold if and only if
  no failure retries a running row whose attempts have reached its maximum (`QueueAttempts.LimitsHoldIff`);
  `QueueAttempts.LateFailureBreaksTheLimit` is a run in which a late failure breaks them.
- A RESTART_PROFILE that finds its profile without a process during a shutdown ends as DONE although nothing is started, and
  so does a START_PROFILE. For commands on one profile these are the only cases: `SupervisorOutcomes.RestartSucceedsIff`,
  `SupervisorOutcomes.StartSucceedsIff`, `SupervisorOutcomes.SuccessIsEarned`. `SupervisorStatus.RestartStartsNothing` and
  `SupervisorStatus.StartStartsNothing` are such runs: the worker crashes, the shutdown begins during its backoff, and the
  command comes after that.
- A command can go from ACCEPTED straight to FORCED, a step that the transition table of `src/server/worker/commands.ts` does
  not list. It happens exactly when a command whose drain deadline was enforced finishes while its DRAINING or APPLYING has not
  reached the table (`SupervisorStatus.LeavesMachineIff`). There are two ways to get there. The write may still be pending when
  a tick that overlaps it during a shutdown enforces and finishes. Or the write threw and the FAILED that should follow threw
  too (`src/supervisor/core.ts:284-288` and 313): the command then stays active, and later ticks finish it.
  `SupervisorStatus.ForcedOverAccepted` is a run of the second kind, `CommandTable.AcceptedCanBeForced` the same in the table.
- A command that was carried out can end as FAILED, because a DONE or FORCED that cannot be written is given up
  (`src/supervisor/core.ts:391`) and the next supervisor fails what is still open. It does exactly when no DONE or FORCED of it
  is the first final status to reach the table (`SupervisorStatus.CarriedOutEndsFailedIff`,
  `SupervisorStatus.CarriedOutEndsFailed`).
- The checks on a capacity look at the four lanes only, while any other profile may exist, by default with every weight
  (`src/server/worker/profiles.ts:52`). The warning on heavy jobs tells the truth if and only if the cap does not lie between
  the slots of the two heavy lanes and those of all profiles that take heavy jobs (`PresetPromises.HeavyWarningIsExact`). The
  summary's readers of a storage are right if and only if all slots that can read are counted in
  (`PresetPromises.MaxReadsIff`). Its number of jobs leaves out the profiles that are not listed, and both callers list the
  lanes only (`src/server/worker/apply-preset.ts:38-43`, `src/components/settings/worker-presets.tsx:50`); besides the cleanup
  it is right if and only if it is at least `QueueCapacity.WorkBound` (`PresetPromises.MaxConcurrentIff`). With one more
  profile for source refreshes, the default caps and no warning, all three fail
  (`PresetPromises.OneMoreProfileBreaksThePromises`).
- The downloaded CSV begins with a byte order mark. A reader that follows RFC 4180 and knows nothing of marks fails on it when
  the first column's name needs quotes, and otherwise gets the mark as part of that name (`Csv.MarkedReadsIff`).
- With precision equal to scale the written `0` counts as an integer digit: `0.5` is refused by DECIMAL(1,1) and `.5` is
  accepted (`DecimalTheorems.WholeDigitEdge`, `DecimalTheorems.FitsIffRepresentable`).
- The pattern for a crashed profile's running jobs also matches profiles whose name continues the crashed one after a dash
  (`LikePattern.RunningPatternExact`).
- A printed table whose last line is one empty field loses that line in readers that take a final line break as the end of the
  last record (`Csv.OptionalBreakExact`).

## Model

| member | source | states |
|---|---|---|
| SupervisorSafety.ProcessesAreChildren | src/supervisor/core.ts:151-276 | In every run and interleaving the live processes are exactly the children of the slots, at most one per profile name, and the fields of every slot agree |
| SupervisorSafety.CommandsAreCarriedOut | src/supervisor/core.ts:297-395 | A command that waited for processes and is marked DONE or FORCED was carried out: every process it had to replace or stop has exited, and a restart spawned a newer process of each target after the command started |
| SupervisorSafety.ReachedMeansCarriedOut | src/supervisor/core.ts:381-387 | The finishing check can only pass when the command has been carried out, whatever happened since it started |
| SupervisorSafety.ShutdownSpawnsNothing | src/supervisor/core.ts:144-186 | Once the supervisor shuts down, no continuation of the run spawns a process |
| SupervisorOutcomes.SuccessIsEarned | src/supervisor/core.ts:297-395 | In every run, DONE or FORCED of a command of any kind was written by one step, which waited for what the command asked or did it at once; a restart or start without a process during a shutdown is the exception, and is told apart exactly |
| SupervisorOutcomes.RestartSucceedsIff | src/supervisor/core.ts:300-315 | A RESTART_PROFILE that ends DONE or FORCED, however much later, has brought a new process of its profile if and only if it did not find the profile without one during a shutdown |
| SupervisorOutcomes.IdleRestartStartsIff | src/supervisor/core.ts:304-309 | A restart that finds no process is DONE at once, and starts one if and only if the supervisor is not shutting down |
| SupervisorOutcomes.StartSucceedsIff | src/supervisor/core.ts:333-343 | From the step that writes DONE for a START_PROFILE its profile has a process, if and only if it had one before or the supervisor is not shutting down |
| SupervisorOutcomes.NextKeepsDroppedIdle | src/supervisor/core.ts:171-176 | A record that is dropped while a STOP holds it belongs to a profile without a process, and stays so |
| SupervisorOutcomes.ForcedFlagIff | src/supervisor/core.ts:260-268 | A command is marked as forced exactly when an enforcement finds that one of its targets used up its drain time |
| SupervisorStatus.LeavesMachineIff | src/supervisor/core.ts:278-395 | In every reachable state a command's status follows the documented machine, and leaves it exactly when a forced command finishes whose progress has not reached the table |
| SupervisorStatus.ForcedOverAccepted | src/supervisor/core.ts:284-313 | A reachable state and the step that writes FORCED over ACCEPTED |
| SupervisorStatus.RowEndsAs | src/supervisor/core.ts:278-395 | Over every run, with any writes lost: a command's row ends as the first final status that reached the table, or as FAILED under the next supervisor when none did |
| SupervisorStatus.CarriedOutEndsFailedIff | src/supervisor/core.ts:391 | A command that was carried out ends as FAILED exactly when no DONE or FORCED of it was the first final status to reach the table |
| SupervisorStatus.CarriedOutEndsFailed | src/supervisor/core.ts:391 | A reachable state in which a restart was carried out, its FORCED was lost, and the next supervisor fails it |
| SupervisorStatus.AttemptIsEarned | src/supervisor/core.ts:297-395 | A DONE or FORCED that a step writes, whether it reaches the table or not, was earned by that step |
| SupervisorStatus.RestartStartsNothing | src/supervisor/core.ts:304-309 | A reachable state in which a restart is DONE, no process was started, and its enabled profile has none |
| SupervisorStatus.StartStartsNothing | src/supervisor/core.ts:333-343 | The same for a start |
| SupervisorSafety.ExitsWithoutWorkers | src/supervisor/core.ts:365-395 | exit(0) is reached only when no worker it ever spawned is alive |
| SupervisorSafety.NextKeepsInv | src/supervisor/core.ts:102-395 | Every step of a tick, a command, an exit or a shutdown keeps the invariant on slots, processes, suspended commands and outcomes |
| SupervisorSafety.RunKeepsInv | src/supervisor/core.ts:102-395 | Every run keeps that invariant |
| SupervisorSafety.ReconcileKeepsInv | src/supervisor/core.ts:151-177 | A reconcile keeps it, including the deletion of slots, which never drops one with a live child |
| SupervisorSafety.ExitKeepsInv | src/supervisor/core.ts:203-231 | An exit between any two steps keeps it |
| SupervisorSafety.ResumeStopKeepsInv | src/supervisor/core.ts:317-331 | A STOP that resumes after its write keeps it, even when its record was dropped meanwhile |
| SupervisorSafety.ResumeStartKeepsInv | src/supervisor/core.ts:333-343 | A START that resumes after its write keeps it |
| SupervisorReconcile.ReconcileEstablishesDesired | src/supervisor/core.ts:151-177 | One reconcile over profiles with distinct names gives the desired state: enabled and not backing off means a child, disabled or unlisted means none or a draining one |
| SupervisorReconcile.ReconcileIdempotent | src/supervisor/core.ts:151-177 | A second reconcile with the same profiles and clock changes nothing |
| SupervisorTiming.DrainNeverPostpones | src/supervisor/core.ts:242-258 | A further drain request of any mode and timeout never moves the first SIGKILL later |
| SupervisorTiming.EnforceKeepsProjection | src/supervisor/core.ts:260-276 | Escalating to SIGTERM keeps the projected time of SIGKILL |
| SupervisorTiming.NextKeepsDrain | src/supervisor/core.ts:102-395 | No reconcile, command or shutdown undoes or delays a drain in progress |
| SupervisorTiming.DrainedIsKilled | src/supervisor/core.ts:242-276 | With ticks at most delta apart, a drained process that never exits is sent SIGKILL by its deadline plus 30 s plus 2 delta, whatever else is asked meanwhile |
| SupervisorTiming.TerminatedIsKilled | src/supervisor/core.ts:246-253 | After SIGTERM it is sent SIGKILL within delta of the planned time |
| SupervisorBackoff.RespawnsSlowDown | src/supervisor/core.ts:167-169 | Over a run of unstable crashes the n-th respawn starts no earlier than the sum of the first n waits, and CRASH_LOOP is shown exactly from the fifth crash on |
| SupervisorBackoff.CrashKeepsCrashing | src/supervisor/core.ts:203-231 | The k-th crash in a row delays the next start by at least min(1000 * 2^(k-1), maximum) |
| SupervisorBackoff.WaitsDouble | src/supervisor/core.ts:223-224 | Until the maximum is reached k waits add up to 1000 * (2^k - 1) ms |
| SupervisorSignals.TermIsDue | src/supervisor/core.ts:242-276 | In every run a SIGTERM was sent by a command that asked its process to leave at once, or by an enforcement at or after the drain deadline of that process |
| SupervisorSignals.DeadlineWasTold | src/supervisor/core.ts:254-257 | In every run a process with a drain deadline was sent the request to finish its jobs when the deadline was set, and the deadline is that time plus the timeout of the step that asked |
| SupervisorSignals.KillsComeLate | src/supervisor/core.ts:246-274 | In every run, whatever its clock readings, a SIGKILL follows a SIGTERM of the same process by at least 10 s, and by at least 30 s when no immediate request of the run reached the process |
| SupervisorSignals.TargetsAreTold | src/supervisor/core.ts:242-258 | Every process that a command or a shutdown asks to leave is told: at once with SIGTERM and SIGKILL due 10 s later, or after its jobs with a deadline, unless it was told before |
| SupervisorSignals.NextAsks | src/supervisor/core.ts:102-395 | Any step but an exit or an enforcement sends nothing but what its request says, to the processes it reaches, and moves no deadline and no time of SIGKILL that is set |
| SupervisorExits.CrashesAreCounted | src/supervisor/core.ts:203-231 | In every run the crash counter of a record is the number of crashes in a row at the end of its exits: not asked for, no clean exit after 5 s, and a crash after a minute of running counts anew |
| SupervisorExits.CrashLoopMeansFiveCrashes | src/supervisor/core.ts:228-231 | In every run CRASH_LOOP means that the last five exits were neither asked for nor clean after 5 s, and that each of them but the first followed less than a minute of running |
| SupervisorExits.CleanExitStartsAgain | src/supervisor/core.ts:215-227 | After an exit on request, or with code 0 after at least 5 s, there is no wait: the next reconcile at any clock reading starts the profile if it is listed and enabled, unless the supervisor shuts down |
| SupervisorExits.StableCrashWaitsOneSecond | src/supervisor/core.ts:228-231 | A crash after at least a minute of running counts as the first and waits at most 1 s; a reconcile from then on starts the profile |
| SupervisorExits.NextExits | src/supervisor/core.ts:203-231 | In numbers, what an exit makes of the record whose process it was; every other record stays |
| SupervisorExits.NextCarries | src/supervisor/core.ts:102-395 | Every other step keeps the crash counter and the start of a process; a wait can only end, and a new process starts at the clock reading of the step |
| SupervisorCommands.CommandsWaitForTargets | src/supervisor/core.ts:300-376 | A command waits for exactly the processes it asks to leave, is not forced and counts the processes that exist then; without any it is over at once, except RESTART_SUPERVISOR |
| SupervisorCommands.CommandEndsIff | src/supervisor/core.ts:381-394 | The check ends an active command if and only if each process it waits for is gone and, for a restart, its profile has another one; it becomes DONE, or FORCED by its flag, and exit(0) is called for RESTART_SUPERVISOR only |
| SupervisorCommands.StopDisables | src/supervisor/core.ts:321-330 | A STOP leaves its record, if it is still there, disabled, and every other record as it was |
| SupervisorCommands.StartEnables | src/supervisor/core.ts:338-342 | A START leaves its record, if it is still there, enabled, without a wait, and with a process unless the supervisor shuts down; every other record stays |
| SupervisorCommands.RestartAllReachesEveryone | src/supervisor/core.ts:345-356 | RESTART_ALL takes every enabled profile without a process out of its wait and nothing else of it, asks every enabled one with a process to leave, and leaves the disabled ones alone |
| SupervisorCommands.ShutdownReachesEveryone | src/supervisor/core.ts:144-147 | Both ways of shutting down ask every process to leave |
| Supervisor.Supervisor.Perform | src/supervisor/core.ts:89-395 | Any step of the object with mutable records is an enabled step of the state machine, with the looked-up profile it names, and keeps the invariant |
| Supervisor.Supervisor.Reconcile | src/supervisor/core.ts:151-177 | The loops over profiles and slots, updating records in place, do one Reconcile of the state machine |
| Supervisor.Supervisor.ReconcileProfile | src/supervisor/core.ts:153-170 | One round of the loop over profiles |
| Supervisor.Supervisor.Sweep | src/supervisor/core.ts:171-176 | The loop that drains and deletes the slots of deleted profiles |
| Supervisor.Supervisor.SpawnSlot | src/supervisor/core.ts:186-201 | Spawning gives a fresh process to a slot without one and registers its callback |
| Supervisor.Supervisor.OnChildExit | src/supervisor/core.ts:203-231 | The callback of a process updates exactly the slot whose child it was |
| Supervisor.Slot.Exited | src/supervisor/core.ts:203-227 | What an exit makes of every field of the record: end of a drain, clean exit after 5 s, or crash with its wait, counted anew after a minute |
| Supervisor.Slot.BeginDrain | src/supervisor/core.ts:242-258 | What a drain request makes of the record, and the signal it sends: SIGTERM with SIGKILL due in 10 s, or the request to drain with a deadline, each only once |
| Supervisor.Slot.Enforce | src/supervisor/core.ts:260-276 | What the deadlines make of the record, and the signals sent: SIGTERM once the drain deadline has passed with SIGKILL due in 30 s, SIGKILL only once that is due, and never both at a time |
| Supervisor.Slot.Started | src/supervisor/core.ts:187-197 | What a spawn makes of the record |
| Supervisor.Slot.Refresh | src/supervisor/core.ts:160-161 | A record takes its fresh profile, and counts as running after 2 s |
| Supervisor.Supervisor.EnforceDeadlines | src/supervisor/core.ts:260-276 | The loop over slots escalates each of them and marks the commands that waited for one as forced |
| Supervisor.Supervisor.MarkForced | src/supervisor/core.ts:268 | Exactly the active commands with that target become forced |
| Supervisor.Supervisor.BeginShutdown | src/supervisor/core.ts:144-147 | Shutdown drains every slot with a child |
| Supervisor.Supervisor.SlotById | src/supervisor/core.ts:293-295 | Finds the first slot, in the order in which slots were added, whose profile has the id, or none when there is none |
| Supervisor.Supervisor.RestartProfile | src/supervisor/core.ts:300-315 | RESTART_PROFILE with its failures, its immediate start and its drain |
| Supervisor.Supervisor.BeginStop | src/supervisor/core.ts:317-320 | STOP_PROFILE up to its database write, holding the record it found |
| Supervisor.Supervisor.ResumeStop | src/supervisor/core.ts:322-330 | STOP_PROFILE after the write, on that record |
| Supervisor.Supervisor.BeginStart | src/supervisor/core.ts:333-336 | START_PROFILE up to its database write |
| Supervisor.Supervisor.ResumeStart | src/supervisor/core.ts:338-342 | START_PROFILE after the write, on the record it holds |
| Supervisor.Supervisor.RestartAll | src/supervisor/core.ts:345-363 | RESTART_ALL drains the enabled slots with a child, takes the others out of their backoff, and waits for the former |
| Supervisor.Supervisor.RestartSupervisor | src/supervisor/core.ts:365-376 | RESTART_SUPERVISOR shuts down and waits for every child |
| Supervisor.Supervisor.Reached | src/supervisor/core.ts:383-387 | The check whether all targets of a command are where they should be |
| Supervisor.Supervisor.FinishCommand | src/supervisor/core.ts:382-394 | One entry of finishCommands, also when another tick finished it already |
| CommandTable.Table.ClaimCommand | src/supervisor/db.ts:43-51 | Accepts the oldest pending command, or nothing exactly when none is pending |
| CommandTable.Table.UpdateCommand | src/supervisor/db.ts:53-61 | Never overwrites a terminal status, and sets the finish time exactly on terminal ones |
| CommandTable.Table.ExpireStale | src/supervisor/db.ts:67-72 | A pending row older than an hour becomes EXPIRED with a finish time and a reason; every other row is as before |
| CommandTable.Table.FailOrphanedCommands | src/supervisor/db.ts:75-85 | A row in progress becomes FAILED with a finish time and a reason, every other row is as before, and the answer is how many changed |
| CommandTable.AcceptedAtMostOnce | src/supervisor/db.ts:43-51 | With any number of supervisors each command is accepted at most once, and has a finish time exactly when it is terminal |
| CommandTable.NextTransition | src/server/worker/commands.ts:27-37 | One step moves a status along the documented machine or keeps it; it leaves the machine exactly when FORCED is written to an open command whose progress was never written; a terminal row never changes |
| CommandTable.AcceptedCanBeForced | src/server/worker/commands.ts:27-37 | A run from the empty table whose last step does |
| CommandTable.RunMovesForward | src/supervisor/db.ts:53-85 | Over any run a status only moves forward |
| JobTable.Jobs.FindFirst | src/worker/claim.ts:22-30 | Finds a least eligible row by weight and then age, or nothing exactly when no row is eligible; eligible means: waiting and available by now, of a type and weight that the lane takes, and below the caps on heavy jobs and on readers of its storage |
| JobTable.Jobs.Claim | src/worker/claim.ts:19-33 | Starts that row under the worker's label with one more attempt, and changes nothing else |
| JobTable.Jobs.Complete | src/worker/index.ts:450-456 | Completes the row if it is still running, whoever holds it, and counts it |
| JobTable.Jobs.Fail | src/worker/index.ts:458-493 | Retries or fails a running row by the attempt and limit read at the claim, with the wait of 30 s per attempt up to 2 min |
| JobTable.Jobs.ReleaseSelf | src/worker/index.ts:722-751 | A row not running under a label of this worker's slots is as before. Of the others, after a crash those out of attempts are FAILED and the rest wait again; after a clean stop all wait again with one attempt less |
| JobTable.Jobs.RecoverStale | src/worker/index.ts:580-653 | No job with a stale heartbeat runs on; no upload is IMPORTING without a queued, running or completed job; no source or derived table is running without an active job; nothing else is touched |
| JobTable.Jobs.RecoverJobs | src/worker/index.ts:584-606 | A row changes if and only if it runs with a heartbeat older than 90 minutes for an import and 2 minutes for any other job: without attempts left it ends as FAILED, otherwise it waits again from now |
| JobTable.Jobs.RepairUploads | src/worker/index.ts:608-617 | Exactly the IMPORTING uploads all of whose jobs are failed become FAILED |
| JobTable.Jobs.RepairSources | src/worker/index.ts:619-636 | Exactly the running sources without a queued or running refresh become failed |
| JobTable.Jobs.RepairDerived | src/worker/index.ts:638-653 | The same for derived tables |
| JobTable.Jobs.ScheduleCleanup | src/worker/index.ts:820-826 | Adds a cleanup job exactly when none is active |
| JobTable.Jobs.Cancel | src/app/api/v1/uploads/cancel-all/route.ts:28-31 | A cancellation fails a queued or running row and leaves its lock as it is |
| JobTable.Jobs.DismissFailed | src/app/api/v1/uploads/dismiss-failed/route.ts:10-13 | Every failed row becomes completed, every other row is as before, and the answer is how many changed |
| JobTable.Jobs.Delete | src/server/data/catalog.ts:67-69 | Exactly the given jobs are deleted, whatever their status, every other row is as before, and the answer is how many there were |
| Worker.Worker.constructor | src/worker/index.ts:799-804 | A new worker releases the jobs its predecessor left running, failing the exhausted ones, and starts with idle loops |
| Worker.Worker.Guard | src/worker/index.ts:660 | The loop goes on to a claim exactly when the worker may claim, and returns otherwise |
| Worker.Worker.Claim | src/worker/index.ts:662-675 | The answer is a least eligible job or none when there is none; with a job the loop works on it with the attempt it read, and the counter stays right |
| Worker.Worker.ClaimFails | src/worker/index.ts:666-670 | A claim that throws leaves nothing in hand, and the loop waits |
| Worker.Worker.ClaimLost | src/worker/index.ts:666-670 | So does one whose answer is lost, though a least eligible job now runs under the loop's label |
| Worker.Worker.Complete | src/worker/index.ts:687 | completeJob on the loop's job |
| Worker.Worker.WrapUp | src/worker/index.ts:688-694 | Once metrics and audit are written the job is out of hand and the loop starts over |
| Worker.Worker.FailThrows | src/worker/index.ts:711-716 | A failure that cannot be written leaves the table as it is, and the loop starts over |
| Worker.Worker.Failed | src/worker/index.ts:707-717 | fail on the loop's job, unless the worker's own stop cancelled it; the loop starts over |
| Worker.Worker.Terminate | src/worker/index.ts:60-63 | SIGTERM forbids further claims and changes nothing else |
| Worker.Worker.ReleaseWithRefund | src/worker/index.ts:68-71 | A clean stop gives this worker's running jobs back with their attempt |
| Worker.Worker.FinishedAgrees | src/worker/runtime.ts:49-65 | The counter of jobs in hand agrees with the loops, so `finished` means what the fleet says |
| JobQueue.StatementsAreRowSteps | src/worker/index.ts:450-751 | No statement but a claim starts a row; a completed row keeps everything but its heartbeat, a failed one does unless it is dismissed, and a row that goes on waiting waits until the same time |
| JobQueue.FinishedIsFrozen | src/worker/index.ts:450-751 | COMPLETED and FAILED rows are not changed by claim, completeJob, fail, recoverStale, releaseSelf or a cancellation |
| QueueSafety.FinishedForever | src/app/api/v1/uploads/dismiss-failed/route.ts:10-13 | Over any run a completed job stays as it is, but for a late heartbeat, and a failed one does too unless failures are dismissed: then, and only then, it becomes completed. All that holds until its row is deleted, and then it is gone |
| QueueSafety.AttemptsAreStartsLessRefunds | src/worker/index.ts:722-751 | Over any run, whatever fails, a job's attempts are its starts less its refunds |
| QueueSafety.CapsHold | src/worker/claim.ts:26-27 | In every reachable state at most maxHeavy jobs of weight 2 run, and at most perStorage read from any storage |
| QueueSafety.ClaimKeepsCaps | src/worker/claim.ts:22-30 | A row that passes the gates of claim still fits the caps once it runs |
| QueueSafety.OneCleanup | src/worker/index.ts:820-826 | Over any run at most one METADATA_CLEANUP is queued or running |
| QueueTimes.RetryWaits | src/worker/index.ts:489 | When a failure of attempt k at time f puts a job back in line, whatever happens then, the row of its next start carries a time of at least f + min(30 s * k, 120 s) |
| QueueTimes.StartIsLate | src/worker/claim.ts:23 | No job is started before it is available |
| QueueTimes.RecoveryInNumbers | src/worker/index.ts:584-606 | Each of the two statements changes exactly the running rows whose heartbeat is too old for their type and that have, or have not, attempts left |
| QueueTimes.RecoveryTakesNoLivingJob | src/worker/index.ts:580-606 | Over every run a running job whose last heartbeat is recent enough whenever recovery looks runs on under the same label, unless a step other than recovery took it from its loop |
| QueueAttempts.LimitsHoldIff | src/worker/index.ts:458-493 | Over every run: all jobs stay within their limits and waiting ones have attempts left, if and only if no failure retries a running row whose attempts have reached its maximum |
| QueueAttempts.StartsBounded | src/worker/index.ts:458-493 | Then a job starts at most its limit plus its refunds times |
| QueueAttempts.AttemptsBounded | src/worker/index.ts:458-493 | That is so whenever failures come from the current claimer |
| QueueAttempts.FailureStaysWithinIff | src/worker/index.ts:484-493 | A failure breaks the limit exactly when the row runs, is retried and has no attempts left |
| QueueAttempts.LateFailureBreaksTheLimit | src/worker/index.ts:484-486 | A reachable run in which a failure by a former claimer breaks it |
| QueueAttempts.NextKeepsCleared | src/worker/index.ts:733-746 | Between the two release statements of a boot no exhausted job can appear under the profile's labels |
| QueueSlots.FaultFreeRunsKeepSlots | src/worker/index.ts:655-719 | Without lost answers every running job has a slot of its own, and its loop works on it or was stopped in the middle of it |
| QueueSlots.ReleasedHoldsNothing | src/worker/index.ts:738-747 | After a boot's release nothing runs under the profile's labels, on any host |
| QueueCapacity.RunningWithinSlots | src/lib/worker-presets.ts:205 | Without faults no more jobs run than there are slots |
| QueueCapacity.WorkWithinSlots | src/worker/claim.ts:22-30 | Besides the cleanup no more jobs run than there are slots that take light jobs, plus those that take only heavy ones up to the cap |
| QueueCapacity.ReadsWithinSlots | src/worker/claim.ts:27 | No storage is read by more jobs than its cap, nor than the slots that take light refreshes plus those that take only heavy ones up to the cap on these |
| QueueCapacity.EnoughCapacityRefusesNothing | src/worker/claim.ts:26 | With a cap of at least the slots of all profiles that take heavy jobs no idle slot is turned away by it |
| QueueCapacity.PlanRuns | src/worker/claim.ts:19-33 | Any jobs that fit their slots and, together, the caps can all run at once in some fault-free run |
| CapacityExact.SomeSlotIsRefused | src/worker/claim.ts:26 | With a smaller cap any profile that takes heavy jobs has an idle slot turned away in some fault-free run |
| CapacityExact.HeavyGateIff | src/worker/claim.ts:26 | The two together, for any profiles, those that take every weight included |
| CapacityExact.ReadsReached | src/worker/claim.ts:27 | The bound on readers of a storage is reached |
| CapacityExact.ReadsAtMostIff | src/worker/claim.ts:27 | So it is the least one |
| CapacityExact.WorkReached | src/worker/claim.ts:22-30 | The bound on running jobs is reached |
| CapacityExact.WorkAtMostIff | src/worker/claim.ts:22-30 | So it is the least one |
| QueueDrain.AtMostOneMore | src/worker/index.ts:660-675 | Once draining or stopping, each loop starts at most one more job, and only if its claim was in flight |
| QueueDrain.DrainExitIsClean | src/worker/index.ts:858-866 | A drained worker exits with no job in flight and, without faults, none running under its labels |
| QueueDrain.FinishedIsNotStable | src/worker/runtime.ts:63-65 | `finished` can hold and be false again while a claim is in flight, in a reachable state |
| QueueDrain.LostFailureDoublesASlot | src/worker/index.ts:705-713 | A failure that could not be written lets two jobs run under one label |
| QueueDrain.TwoJobsUnderOneLabel | src/worker/index.ts:705-713 | A reachable state in which they do |
| Presets.DetectPreset | src/lib/worker-presets.ts:129-131 | The preset whose values are exactly the current ones, in numbers, or none exactly when no preset matches |
| Presets.DiffCapacity | src/lib/worker-presets.ts:149-176 | The lines say exactly what differs, from which value to which, what must restart for it and what is created |
| Presets.NothingToChangeIff | src/lib/worker-presets.ts:149-176 | The comparison is empty exactly when the capacity has everything the target asks for, also for targets that leave lanes unset or off |
| Presets.NothingToChangeMeansDetected | src/lib/worker-presets.ts:129-176 | The comparison with a preset is empty exactly when that preset is detected |
| Presets.ApplyingTheDiffReachesTheTarget | src/lib/worker-presets.ts:149-176 | Carrying out the listed lines sets exactly what the target sets, for any target, and keeps everything else |
| PresetPromises.ValidateCapacity | src/lib/worker-presets.ts:218-245 | An error exactly for a lane whose slots are a fraction or less than one, and each warning exactly when its rule applies, in numbers |
| PresetPromises.PresetsPass | src/lib/worker-presets.ts:81-101 | Every preset passes its own checks without error or warning |
| PresetPromises.NeverMoreThanMaxConcurrent | src/lib/worker-presets.ts:201-205 | When every profile is listed no fault-free run has more jobs running than the summary says, whatever the other profiles take |
| PresetPromises.MaxConcurrentIff | src/lib/worker-presets.ts:201-205 | When profiles may be left out, the exact condition for that, counting jobs besides the cleanup |
| PresetPromises.MaxReadsIff | src/lib/worker-presets.ts:206 | The readers of one storage never exceed the summary if and only if all slots that can read are counted in |
| PresetPromises.NeverMoreReadsThanPromised | src/lib/worker-presets.ts:206 | So they do not when only the lanes take source refreshes |
| PresetPromises.HeavyWarningIsExact | src/lib/worker-presets.ts:226-230 | With any other profiles: idle slots of the heavy lanes are never turned away if and only if the cap covers all slots that take heavy jobs, and exactly when the warning is right about it |
| PresetPromises.HeavyWarningHolds | src/lib/worker-presets.ts:226-230 | It always is when no other profile takes heavy jobs |
| PresetPromises.OneMoreProfileBreaksThePromises | src/lib/worker-presets.ts:112-118 | One more profile with default weights, no warning, and three reachable states: a heavy lane turned away, too many readers, too many jobs |
| WorkerRuntime.WorkerState.JobStarted | src/worker/runtime.ts:54-56 | One more job in hand, so not finished |
| WorkerRuntime.WorkerState.JobFinished | src/worker/runtime.ts:58-60 | One job less, never below zero |
| WorkerRuntime.AbortAndWait | src/worker/runtime.ts:73-78 | Every token is cancelled; the wait ends at the first poll without a job in hand, or after the grace time, and says which |
| WorkerRuntime.ConflictOnlyWhileFresh | src/worker/runtime.ts:95-108 | A conflict needs a pulse no older than 45 s |
| WorkerRuntime.PulseConflictIff | src/worker/runtime.ts:95-108 | The pulse a worker wrote conflicts with another start exactly as long as it is no older than 45 s and its writer is on another host or is another process of this host that is alive |
| WorkerRuntime.PulseReadsBack | src/worker/metrics.ts:70-78 | What is written as a pulse is read back as its time, host and process |
| WorkerRuntime.OldPulseConflictIff | src/worker/runtime.ts:104 | A pulse in the old format conflicts exactly as long as it is no older than 45 s |
| WorkerRuntime.WaitIdentityFree | src/worker/runtime.ts:116-131 | Ends within the waiting time plus one poll, and succeeds exactly when the last check found no conflict |
| WorkerRuntime.DeadPredecessorFrees | src/worker/runtime.ts:110-131 | A predecessor whose pulse never changes never causes a refusal |
| WorkerRuntime.WaitSucceedsIff | src/worker/runtime.ts:116-131 | When a conflict that is gone stays gone, the wait succeeds exactly when it is gone by the last poll |
| WorkerRuntime.RefusalIsLate | src/worker/runtime.ts:124-130 | A refusal comes only after the whole wait |
| WorkerRuntime.OtherHostFreesIff | src/worker/runtime.ts:95-131 | For an unchanged pulse of another host, exactly when the identity becomes free |
| DecimalType.FitDecimal | src/lib/decimal-type.ts:39-52 | The least scale and least integer digits that hold every value; null exactly when a value is malformed or 38 digits are not enough |
| DecimalType.LegacyRoundDecimal | src/lib/decimal-type.ts:71-90 | The steps on text compute LegacyRound, whose meaning the next lemmas give |
| DecimalType.RoundUpIsHalfUp | src/lib/decimal-type.ts:78-82 | Rounding on the first dropped digit is floor(abs(v) * 10^s + 1/2) |
| DecimalType.ParseDecimalType | src/lib/decimal-type.ts:16-25 | Whatever is read is a legal type |
| DecimalNames.ParseIff | src/lib/decimal-type.ts:13-25 | Exactly which texts are read and as what: a keyword alone as the legacy type, a keyword with two numbers of one to three digits as the legal type they name, in any letter case and with any white space |
| DecimalNames.NameRead | src/lib/decimal-type.ts:13-22 | Such a name is read as its two numbers, or refused when they are no legal type |
| DecimalTheorems.FitsIffRepresentable | src/lib/decimal-type.ts:55-61 | decimalFits holds exactly when the value times 10^s is an integer below 10^p, and what happens without a whole digit |
| DecimalTheorems.WholeDigitEdge | src/lib/decimal-type.ts:58-60 | The edge at precision equal to scale, in numbers |
| DecimalTheorems.LegacyRoundMeaning | src/lib/decimal-type.ts:71-90 | Refused exactly when malformed or too large after rounding; otherwise the rounded integer over 10^s with the sign of v |
| DecimalTheorems.HalfUpIsNearest | src/lib/decimal-type.ts:79-82 | The rounded integer is the nearest one, ties away from zero |
| DecimalTheorems.LegacyRoundIdempotent | src/lib/decimal-type.ts:71-90 | Rounding a rounded value changes nothing, not even its text |
| DecimalTheorems.LegacyRoundPreserves | src/lib/decimal-type.ts:77 | A value that fits keeps its number |
| DecimalTheorems.LegacyRoundMonotone | src/lib/decimal-type.ts:71-90 | Rounding keeps the numeric order |
| DecimalTheorems.LegacyRoundNoWholeDigit | src/lib/decimal-type.ts:85-89 | With precision equal to scale every value that needs rounding is refused |
| DecimalTheorems.ParseFormatted | src/lib/decimal-type.ts:13-27 | The name of a type is read back as the type exactly when the type is legal |
| LikePattern.EscapedPercentIsPrefix | src/worker/index.ts:726-728 | An escaped text followed by % is prefix search, for every text |
| LikePattern.SlotPatternExact | src/worker/index.ts:727-728 | A pattern matches a label exactly when profile and slot number are both equal |
| LikePattern.ReleaseSelfExact | src/worker/index.ts:722-749 | releaseSelf takes back exactly the jobs of its own profile's slots, on any host |
| LikePattern.BareLabelInjective | src/worker/index.ts:656 | A label determines its profile and its slot number |
| LikePattern.RunningPatternExact | src/supervisor/db.ts:12-15 | The pattern for a crashed profile matches its labels and those of profiles that continue its name after a dash |
| LikePattern.RunningPatternOverlap | src/supervisor/db.ts:12-15 | So a crash of worker-sync also lists jobs of worker-sync-long, never the reverse |
| Csv.ReadPrintedRows | src/components/workspace/query-panel.tsx:74 | Any table with at least one row and no empty row, with any strings, reads back as the same table |
| Csv.DownloadRoundTrip | src/components/workspace/query-panel.tsx:74-75 | A reader that drops a leading byte order mark gets back the header and the value of every row at every column |
| Csv.MarkedReadsIff | src/components/workspace/query-panel.tsx:74-75 | A reader that does not reads the download if and only if the first column's name needs no quotes, and then gets the mark in front of that name and nothing else changed |
| Csv.ReadPrintedField | src/components/workspace/query-panel.tsx:185-188 | A printed field is read back up to the next separator, including quotes, commas and line breaks |
| Csv.PlainIffHarmless | src/components/workspace/query-panel.tsx:185-188 | A value prints as it is exactly when it has no quote, comma or line break in it, and between quotes otherwise |
| Csv.OptionalBreakExact | src/components/workspace/query-panel.tsx:74 | For readers that accept a final line break, exactly which tables read back |

## Left out

- Prisma, pg, advisory locks, fork and IPC, Sentry, files, LibreOffice, DuckDB and blob storage: all input and output. Signals, exits and callbacks are events, tables are maps.
- Isolation anomalies of claim: its count subqueries are not serialised between concurrent claims. A claim is one atomic step here, as `src/worker/claim.ts:2` intends.
- WorkerFleet.Next: the system of all workers is a state machine on values; one worker in its own form is `Worker.Worker`, whose methods are each tied to the functions of a step, and the table is `JobTable.Jobs`.
- JobTable.Jobs.RecoverStale: statements of other processes may come between its five; its contract is about the tables as its own statements leave them. `WorkerFleet` interleaves the two statements on jobs.
- Worker.Worker.constructor: the identity guard before it is `WorkerRuntime`; that one process per profile runs at a time is assumed.
- WorkerFleet.Enabled: a stop signal during the two release statements of a boot is modelled as a crash, not as a stop with a refund.
- JobTable.Jobs.Claim: ties between rows of equal weight and age are broken arbitrarily, as the statement leaves them.
- WorkerRuntime.WaitIdentityFree: the poll interval is assumed to be at least 1 ms; the program's is 2 s.
- SupervisorModel.BeginStop: the state machine allows any slot with the command's profile id; `Supervisor.Supervisor.SlotById` finds the first.
- Supervisor.Supervisor.BeginShutdown: takes one clock reading for all slots, where the program reads the clock for each slot in the same turn of the event loop.
- PresetPromises.MaxConcurrentIff: counts jobs besides METADATA_CLEANUP, of which at most one is active at a time.
- Sums of slots in the summary are over the reals; JavaScript adds and rounds floating-point numbers.
- The typical memory estimate of summarize, describeEffective, labels and other texts of the presets.
- Command result texts, audit records, heartbeats, summaries, needsRestart and the metrics of jobs.
- QueueSafety.CapsHold: counts rows. When the row of a running job is deleted (`src/server/data/catalog.ts:68-69`, 89, 117, 145-146) its worker works on without being counted.
- Which jobs a deletion of tables, sources, groups, datasets or old jobs takes, and what else it deletes; deletion of old commands, the orphan-file sweep, the upload status machine besides its repair by recoverStale, and the cancel and retry requests besides their effect on a job row.
- isNonRetryable and the next refresh time: a boolean and a clamped integer the model takes as given. Error texts of failed jobs.
- Migration of settings between running workers: caps and profiles are fixed during a run of the queue; the supervisor's configuration may change at any time.
- `src/supervisor/leadership.ts`: after the connection of the leader lock dropped, it tries up to six times with growing pauses to take the lock again and gives up when another supervisor holds it. Not modelled.
- physicalDecimal: one conditional around parseDecimalType.
- React components other than csvField and the CSV line.
