# Verification of the FARM controller

FARM keeps pools of one-job runner VMs. One reconcile pass per pool works on three stores that
can disagree at any moment: the instance records in SQLite, the VMs in Incus and the runners in
Forgejo. Any call can fail before or after it took effect, several provisioning goroutines
interleave, and the process can die between any two calls. This project models that protocol and
the stores it rests on in Dafny 4.11, and proves what holds over every run of it.

    dafny verify dfyconfig.toml

## How the model is built

- `Lifecycle`, `Records`, `InstanceStore`: the record, its states, the guarded changes of
  `mutate`, and the event log. `PoolStore`, `Incidents`: the runtime row and the incident table.
  Both stores are classes; every transaction commits, fails, or commits although an error is
  reported.
- `Breaker`: the two columns of the bootstrap circuit breaker and the rate limit they enforce.
- `Stores`: what one pool has in the three stores, and the elementary effects of calls.
- `Provision`: the program of one provisioning goroutine (`provision`, `fail`, and the `cleanup`
  it can end in), call by call, because goroutines interleave call by call.
- `Protocol`: one pool as a state machine. Its labels are all calls of the pass and of the
  goroutines, the death of the process, creates answered only after it, and whatever happens
  outside (time passes, runners change status, runners and VMs vanish). `Inv` is its invariant.
  `Runs` states what holds in every prefix of every journal of steps, `Bookkeeping` what the
  runtime row says about the passes of a run, `Attempts` what the successes of goroutines rest
  on while they interleave.
- `Servers`, `Controller`: the pass itself, imperative and in the source's own form. Each server
  call is one step of the protocol, followed by arbitrary interference. Since every method keeps
  the journal a legal run, the theorems of `Runs` and `Bookkeeping` hold of the controller;
  `RunPool` says so for any number of passes and deaths. What its methods promise is defined and
  proved from step to step in `Cleanups` (one record), `Sweeps` (orphans), `Retirement` (scaling
  down), `Recovery` (all records of a pass) and `Starts` (provisioning, and the pass as a whole).
  `cleanup` occurs twice, as a method of the pass and as part of a goroutine, because only the
  second is interleaved with others.
- `Fleet`: all pools over shared stores that are keyed by ID and name, not by pool.
- `Config`, `Scheduler`, `IncusTags`, `Backoff`, `Tracker`, `Pagination`, `ShellQuote`: the
  smaller algorithms the protocol or the API rests on; `Arithmetic` is shared by them.

The main results are `Runs.PhysicalBound`, `Runs.StartsArePaced`, `Runs.SweptBeforeCreating`,
`Runs.NoEarlyDeletion`, `Runs.OutcomeFixed`, `Controller.Controller.RunPool`,
`Recovery.RecoveredMeans`, `Controller.Controller.CollectOrphans`, `Bookkeeping.FinishedExactly`,
`Provision.SuccessMeans`, `Provision.LeavesVmExactly`, `Attempts.ResetAfterSuccess`,
`Controller.Controller.ReconcilePool`, `Fleet.RunsAsIfAlone`, `InstanceStore.LogTellsLifecycle`,
`PoolStore.OneOpenIncident`, `Tracker.Tracker.TakeSnapshot`, `Pagination.PagesPartition` and
`ShellQuote.QuoteRoundTrip`.

## Assumptions

- One process per controller ID and database, one pass at a time per pool
  (docs/reference/configuration.md:82, internal/app/app.go:191-208).
- The clock never goes backwards. Instance IDs, and runner IDs issued by Forgejo, are new. Record
  names are unique because the database enforces it.
- A create that Incus has accepted is settled, either way, when its call returns or, if the
  process died meanwhile, before the next pass sweeps.
- The limits of a pool stay the same during a run. A run starts with a closed circuit, on stores
  that may hold more than the limits allow, and contains every later death and restart of the
  process.
- Runners and VMs may go away by themselves at any moment. Nothing of the controller's appears
  by itself: only the controller creates instances with its own tags, under names of its own, or
  registers runners with its own descriptions, and nobody renames or copies them.

## Findings

- A Finished record does not mean that its VM is gone: after a create that took effect but whose
  answer was an error, `fail` finishes the record without deleting the VM, since
  `instanceCreated` is still false (internal/controller/bootstrap.go:94-97, 225-233).
  `Provision.AmbiguousCreateLeavesVm` is such a run. `Provision.LeavesVmExactly` says that, over
  all runs of a goroutine that end with a Finished record, the VM is there if and only if the
  create took effect and was answered with an error. `Runs.SweptBeforeCreating` says that no pass
  creates a VM before it is repaired. The bound on VMs holds throughout.
- A run whose StartPool took effect is not always recorded as finished by its own pass: if the
  answer of StartPool or the first `setProgress` is an error, the pass returns before the
  deferred FinishPool is in place (internal/controller/controller.go:206-212).
  `Bookkeeping.FinishedExactly` says that a pass that is not cut off calls FinishPool if and only
  if both have succeeded, and `Bookkeeping.LeftRunning` that otherwise the run stays in the row
  as running, until the next StartPool of the same process replaces it or, when a new process
  comes up, InterruptPools files it as an interrupted failure (`Bookkeeping.InterruptedRun`,
  `Bookkeeping.NothingOverwritten`).
- A retry time is waited for if and only if the record is in Cleaning. `fail` schedules one even
  if it could not begin the cleanup (`Provision.LostBeginLeavesRetryTime` is such a run), and the
  next pass deals with that Bootstrapping record at once
  (internal/controller/orchestration.go:70-88, `Recovery.RecoveredMeans`). For a record in
  Cleaning nothing is deleted before its retry time (`Runs.NoEarlyDeletion`).
- The branch of `collectOrphans` for a VM whose tag carries another record's ID
  (internal/controller/observation.go:30-32) is never taken under the assumptions above
  (`Sweeps.TaggedName`); a VM renamed or copied with its tags by somebody else would take it.

## Model

| member | source | states |
|---|---|---|
| Lifecycle.ChainClimbs | internal/instance/lifecycle.go:57-73 | along any chain of allowed transitions the rank of the state never falls and at most four links change it |
| Lifecycle.ChainNeverReturns | internal/instance/lifecycle.go:57-73 | Finished is final, Running never becomes Ready again, and Finished is reached only through Cleaning |
| Records.MergeErrorKeeps | internal/store/instance.go:187-196 | the earlier error text stays a prefix, the new text is contained, and merging the same text twice adds nothing |
| Records.ChangeFollowsLifecycle | internal/store/instance.go:103-185 | every change a guard accepts is a lifecycle transition, keeps identity, pool and creation time, and changes the runner exactly to the one SetRegistration was given |
| Records.AcceptedFrom | internal/store/instance.go:103-185 | from which states each call is accepted |
| Records.AcceptedStores | internal/store/instance.go:103-185 | what each accepted call leaves behind: stage, marks and registration clear the retry columns, a cleanup keeps an outcome that is there already and stores the given one otherwise, a retry is counted, timed and keeps the error text |
| Records.Stamped | internal/store/instance.go:216-225 | the timestamp of the state moves exactly when the state does |
| Records.CleanupOutcomeFixed | internal/store/instance.go:146-196 | once cleaning has begun no later call changes result or reason or loses error text |
| InstanceStore.InstanceStore.Create | internal/store/instance.go:15-42 | the new tables for each outcome of the transaction: record and first event together or neither, and nothing for an incomplete record, a used ID or a used name |
| InstanceStore.InstanceStore.Mutate | internal/store/instance.go:198-239 | the new tables for each outcome: refused, unchanged without an event, or record and event together |
| InstanceStore.TellsExtends | internal/store/instance.go:226-251 | an event that starts where the log ends carries the log to the new record |
| InstanceStore.StepKeepsLog | internal/store/instance.go:15-42 | every operation, committed, lost or silently committed, keeps the log and the table in agreement |
| InstanceStore.RunKeepsLog | internal/store/instance.go:198-251 | in every run of the store each log is an unbroken chain from nothing to the record as stored, whose last event shows state, stage, result, reason and error of the record, and in which only state changes change the state |
| InstanceStore.LogTellsLifecycle | internal/store/instance.go:198-251 | read from the log alone: at most four events change the state, the last one is the record's, Finished is never left and Running never becomes Ready |
| InstanceStore.TimestampOfState | internal/store/instance.go:216-225 | in every run of the store `state_changed_at` is the time of the operation that put the record into the state it is in, and it has been in that state ever since |
| InstanceStore.KindMeans | internal/store/instance.go:103-185 | the kind of an event tells a new runner, one more counted failure, a change of state, and nothing but a new stage apart |
| Breaker.ReserveBounds | internal/store/pool.go:63-86 | a reservation is never more than asked for, is empty exactly while the circuit is open and no retry is due, and is a probe of one exactly when a retry is due; it charges what it hands out, but for a probe, and sets a retry time that is missing or due |
| Breaker.ReservedKeeps | internal/store/pool.go:45-97 | a reservation, whatever becomes of the transaction, keeps attempts within the limit, a retry time only at the limit, and the account of starts and probes |
| Breaker.HeldKeeps | internal/store/pool.go:99-107 | moving the retry time after a failed attempt keeps that account |
| Breaker.RateLimit | internal/store/pool.go:63-86 | since the last reset at most `limit` starts while the circuit is closed, and one more per full retry interval since it opened |
| Incidents.EncodeAppend | internal/store/pool.go:181-232 | the run-length encoding of a history of results, read from the front in maximal runs of failures with one stage and one code, can be kept up to date by touching only its last entry |
| Incidents.EncodedRun | internal/store/pool.go:181-232 | every incident stands for a maximal run of consecutive failures of one cause, where a failure without stage or code counts as the controller's or as unknown |
| Incidents.SummaryReports | internal/store/pool.go:181-207 | the incident of a run shows the stage and code of each of its failures, its first and last time and its length, and as much of the last message as 4096 characters hold |
| Incidents.OccurrencesCountFailures | internal/store/pool.go:181-232 | the occurrences of all incidents add up to the number of failed results |
| Incidents.EarlierResolved | internal/store/pool.go:209-216 | every incident of a pool but its last is resolved |
| Incidents.OnlyLastFailureOpen | internal/store/pool.go:130-179 | a pool has an open incident exactly when its last result is a failure |
| PoolStore.FiledAbsorbs | internal/store/pool.go:130-232 | filing a result changes the pool's own incidents as the encoding says, and those of no other pool |
| PoolStore.FinishKeepsAgreement | internal/store/pool.go:130-179 | after a committed FinishPool the incident table is again, pool by pool, the run-length encoding of the results, and every runtime row names its open incident |
| PoolStore.OneOpenIncident | internal/store/schema.go:129 | at most one open incident per pool, named by the runtime row exactly while the last result is a failure, and no failure uncounted |
| PoolStore.StartKeepsRest | internal/store/pool.go:15-32 | a start leaves circuit breaker, open incident and last success of the pool as they are |
| PoolStore.FinishKeepsRest | internal/store/pool.go:130-179 | a result is accepted exactly for the current run, leaves the circuit breaker and other pools alone, and moves the last success exactly if it is one |
| PoolStore.PoolStore.StartPool | internal/store/pool.go:15-32 | sets the run of the pool and nothing else, or nothing on an error |
| PoolStore.PoolStore.FinishPool | internal/store/pool.go:130-179 | files the result exactly when the run ID is current, keeps the encoding, and changes nothing for a stale run |
| PoolStore.PoolStore.RecordIncident | internal/store/pool.go:181-232 | counts a repeated failure on the open incident, or resolves it and opens a new one |
| PoolStore.PoolStore.InterruptPools | internal/store/pool.go:234-265 | on success no pool is left running, each pool that was has exactly one more result, the interruption, and running it again changes nothing |
| PoolStore.InterruptionShows | internal/store/pool.go:250-265 | an interruption is the pool's open incident, of the controller itself, with the code for interrupted and the run's own ID |
| PoolStore.PoolStore.ReserveBootstrap | internal/store/pool.go:45-97 | the in-place update of the row is the reservation the rate limit is proved for, for each outcome of the transaction |
| PoolStore.PoolStore.HoldBootstrap | internal/store/pool.go:99-107 | only the retry time of the one pool changes |
| PoolStore.PoolStore.ResetBootstrap | internal/store/pool.go:109-117 | only the attempts and the retry time of the one pool are cleared |
| Scheduler.NeededIsLargest | internal/scheduler/capacity.go:41-64 | NeededFor is the largest number of starts that respects demand and both caps |
| Scheduler.Needed | internal/scheduler/capacity.go:23-39 | counting the listed records leads to NeededFor of their numbers by state |
| Scheduler.ListCounts | internal/store/instance.go:52-60 | the counts of a list returned by ListPool are the cardinalities in the table, in whatever order it lists them |
| Scheduler.EstimateAgrees | internal/server/api.go:457-464 | the API's estimate from SQL counts equals what Needed computes from ListPool on the same table |
| Stores.EffectedSane | internal/controller/bootstrap.go:17-171 | every effect a call can have keeps tags, names, records and registrations referring to each other consistently |
| Stores.SweptMeans | internal/controller/observation.go:13-85 | what "nothing is orphaned" says about VMs, runners and Finished records |
| Provision.StepsRunOut | internal/controller/bootstrap.go:17-171 | a goroutine ends after at most eighteen calls, whatever their outcomes |
| Provision.GuardsAccept | internal/controller/bootstrap.go:212-239 | no store call of a goroutine is refused by a guard, whatever failed or half failed before |
| Provision.StepSafe | internal/controller/bootstrap.go:17-171 | every call with every outcome touches only the goroutine's own record, VM and runner, and leaves it where its next call is safe: from SetRegistration on the record holds the runner, its stage is that of the call under way, and its outcome that of the path taken |
| Provision.OthersFollow | internal/controller/orchestration.go:18-43 | a step of one goroutine leaves every other one where it was safe |
| Provision.FinishesWithoutLeftovers | internal/controller/bootstrap.go:212-239 | at the call that finishes the record its runner is gone, and a VM is there only if `fail` was called before the creation was confirmed |
| Provision.SuccessMeans | internal/controller/bootstrap.go:17-239 | over every run of a goroutine: one that reports a success leaves its record Ready after seeing its runner idle, Running after seeing it active, or Finished as completed after finding it gone; one that went through `fail` reports none and records no completed job; and there is no other failure after the first call but with the runner gone |
| Provision.GoroutineRetries | internal/controller/bootstrap.go:212-239 | a deletion that fails in a goroutine is followed by a retry that is counted and due five seconds later |
| Provision.CauseRecorded | internal/controller/bootstrap.go:212-239 | the cause of a failed start is stored unless there is an error text already, and errors of the compensation are added to it |
| Provision.AmbiguousCreateLeavesVm | internal/controller/bootstrap.go:94-97 | from any create with an ambiguous answer, a compensation without errors ends with a Finished record whose VM exists |
| Provision.LeavesVmExactly | internal/controller/bootstrap.go:17-239 | over every run of a goroutine from its first call, with every outcome of every call, that ends with a Finished record: the VM is left behind if and only if the create took effect and was answered with an error |
| Provision.LostBeginLeavesRetryTime | internal/controller/bootstrap.go:212-239 | a compensation that fails to begin the cleanup and then meets no error leaves a Bootstrapping record with a retry time in the future |
| Protocol.StepKeeps | internal/controller/controller.go:201-284 | every step of the protocol, with every outcome, keeps the invariant |
| Protocol.StoreCallKeeps | internal/store/instance.go:114-185 | a guarded change by the pass keeps the limits and the sweep |
| Protocol.DeleteKeeps | internal/incus/instance.go:254-291 | deleting an orphan, or something of a record in cleanup, keeps the invariant |
| Protocol.OutsideKeeps | internal/controller/observation.go:50-60 | runners and VMs that vanish by themselves, at any moment, keep the invariant |
| Protocol.BeginProvisioningKeeps | internal/controller/controller.go:258-283 | a swept pool has no VM without a live record, so reserved starts that fit beside the records fit beside the VMs |
| Protocol.SpawnKeeps | internal/controller/bootstrap.go:22-29 | a goroutine that inserts its record uses up one of the reserved starts, whether or not it learns that the insert was committed |
| Protocol.ProceedKeeps | internal/controller/orchestration.go:18-43 | a call of any one goroutine keeps the invariant and is not refused |
| Protocol.SettleLateKeeps | internal/incus/instance.go:142-150 | a create answered only after the process died keeps the limits |
| Runs.RunKeeps | internal/controller/controller.go:201-284 | the invariant holds in every run |
| Runs.CrashAnywhere | internal/app/app.go:191-208 | the process can die after any step of a run, and the result is again a run |
| Runs.PhysicalBound | internal/controller/controller.go:229-283 | at every moment of every run VMs, with creates under way, and live records stay within max_instances and bootstrapping records within max_provisioning; where there is more to begin with, it never becomes more than that |
| Runs.StartsArePaced | internal/controller/controller.go:286-348 | at every moment of every run the starts in the journal since the circuit was last closed are within the limit, plus one per full retry interval since it opened, through failures, lost writes and deaths during an attempt or a probe |
| Attempts.ResetAfterSuccess | internal/controller/controller.go:312-322 | in every run the circuit is closed only after a success in the same pass: some goroutine looked at its runner in that pass and its record is as what it saw demands |
| Attempts.SuccessesAdopted | internal/controller/bootstrap.go:148-171 | at every moment of every run, however goroutines interleave, one that has ended with a success has seen its runner as its record says, in the same pass |
| Runs.InUseIsManned | internal/controller/observation.go:111-135 | in every run a record that is Ready or Running holds a runner that was registered under its name, unless it was in use without one when the run began |
| Runs.SweptBeforeCreating | internal/controller/orchestration.go:45-57 | once a pass has swept, and until it starts goroutines, every VM and runner belongs to a live record and Finished records have neither |
| Runs.GoroutinesNeverRefused | internal/store/instance.go:114-176 | in no run is a goroutine's call refused by a guard of the store |
| Runs.LiveVmKept | internal/controller/observation.go:28-49 | in any legal run a VM disappears by itself, as an orphan, while its own record is in cleanup, or in the compensation of its own failed start |
| Runs.OwnCleanup | internal/controller/cleanup.go:12-53 | in a run of the controller, what is deleted for a live record is deleted in a cleanup of that same record, begun when it was due and not interrupted since |
| Runs.NoEarlyDeletion | internal/controller/orchestration.go:70-88 | in a run of the controller no deletion for a record in Cleaning falls before its retry time |
| Runs.OutcomeFixed | internal/controller/cleanup.go:12-53 | after the first committed BeginCleanup every run keeps result and reason and only extends the error text, however often cleanup is interrupted |
| Backoff.DelayGrows | internal/controller/cleanup.go:62-71 | the delay never falls with more failures and stays between five seconds and five minutes |
| Backoff.RetryDelay | internal/controller/cleanup.go:62-71 | the doubling loop computes min(5 * 2^n, 300) seconds for every retry count |
| Servers.Servers.Update | internal/store/instance.go:198-239 | a call on a record is refused, or takes effect, fails before or fails after, and then the world may change |
| Servers.Servers.ListPool | internal/store/instance.go:52-60 | every record that is not finished once, in some order |
| Servers.Servers.Managed | internal/incus/instance.go:163-190 | every VM with the pool's tags once |
| Servers.Servers.DeleteInstance | internal/incus/instance.go:254-291 | deletes one VM, with absence counting as success; callers must own it |
| Servers.Servers.Runners | internal/controller/observation.go:62-69 | every runner of the pool under its description, among any others of the scope |
| Servers.Servers.Runner | internal/controller/observation.go:88-94 | not found only for a runner that is gone, otherwise its status at that moment or an error |
| Servers.Servers.RemoveRunner | internal/controller/cleanup.go:30-35 | deletes one runner; callers must own it |
| Servers.Servers.StartPool | internal/store/pool.go:15-32 | the run is known to have started exactly if the call succeeded |
| Servers.Servers.ProgressPool | internal/controller/controller.go:210-212 | the first progress of the run: FinishPool is owed exactly if it succeeded |
| Servers.Servers.FinishPool | internal/controller/controller.go:213-227 | one FinishPool for the run, whatever becomes of it; if it succeeded the row holds the result |
| Servers.Servers.InterruptPools | internal/store/pool.go:234-265 | if it succeeded no run is left running |
| Servers.Servers.Die | internal/app/app.go:191-208 | the process dies after any number of its steps and starts again |
| Controller.Controller.Cleanup | internal/controller/cleanup.go:12-53 | ends Finished with VM and runner gone, or with an error, which comes from a failed call; either way with the outcome of the first BeginCleanup, and without a step for any other record; if only a deletion fails, the next attempt is put off by the backoff |
| Controller.Controller.RetryDelete | internal/controller/cleanup.go:62-85 | unless it fails, one more retry is counted and is due exactly when the backoff has passed |
| Controller.Controller.Observe | internal/controller/observation.go:87-109 | without an error the record ends as the runner's status at the lookup demands, for each status and each state |
| Controller.Controller.ObserveState | internal/controller/observation.go:111-135 | marks the record and nothing else |
| Controller.Controller.SweepVms | internal/controller/observation.go:23-49 | without an error every VM left belongs to a live record and was seen; no VM of a live record is deleted |
| Controller.Controller.SweepMissing | internal/controller/observation.go:50-60 | only Ready and Running records whose VM was not found are ended, and all of those; no VM that was found is deleted |
| Controller.Controller.SweepRunners | internal/controller/observation.go:62-84 | without an error every runner left is held by a record; every runner that is deleted was registered for this pool and is held by no record, so that other pools' runners are not touched |
| Controller.Controller.CollectOrphans | internal/controller/observation.go:13-85 | without an error nothing is orphaned and every Ready or Running record had its VM when the sweep began; even with one, the sweep deletes no VM of a live record that was there when it began and gives a record up only because it had no VM |
| Sweeps.NothingOrphaned | internal/controller/observation.go:13-85 | the three loops together, over lists read at different moments, leave nothing orphaned |
| Sweeps.TaggedName | internal/controller/observation.go:28-32 | a VM whose tag names a known record has that record's name |
| Controller.Controller.Dispatch | internal/controller/orchestration.go:58-95 | what becomes of a record for each state, age, retry time and runner status; while a retry is not due nothing happens at all, and no step is for any other record |
| Controller.Controller.ReconcileInstances | internal/controller/orchestration.go:45-97 | without an error every record was given up because its VM was missing or was dealt with at some moment of the pass as its state and its runner's status at that moment demand; without a fault there is no error |
| Recovery.RecoveredMeans | internal/controller/orchestration.go:45-97 | after a pass without an error no record of an earlier process is left Bootstrapping: each is Ready or Running because its runner was seen idle or active during the pass, or Finished with VM and runner gone, or unchanged with a retry in the future; every due cleanup, every start without a runner and every job over its lifetime has ended with its own outcome |
| Controller.Controller.ScaleDown | internal/controller/orchestration.go:99-128 | never takes Ready below min(ready, min_idle + waiting), retires only VMs that were idle for long enough, and without an error leaves no excess but younger VMs |
| Controller.Controller.Rescale | internal/controller/controller.go:250-272 | scales down and then needs NeededFor of the records as they are; if any VM is needed, no record has changed |
| Retirement.NeverBoth | internal/controller/controller.go:250-272 | a pool is not scaled down and up in one pass: if any VM is needed afterwards, none was retired |
| Controller.Controller.ProvisionMany | internal/controller/orchestration.go:18-43 | any interleaving of the goroutines ends, having started exactly `count`, none refused; it reports exactly those that succeeded, and no error only if all did; every record it has inserted belongs to the pool and is named after it |
| Controller.Controller.ProvisionNeeded | internal/controller/controller.go:286-348 | starts exactly what the circuit breaker allows and nothing while it is open, where a missing probe time is set; a success closes the circuit; without one the starts stay charged, and at the limit the next probe is put off by the retry interval; no error exactly if no call and no start has failed |
| Controller.Controller.Pass | internal/controller/controller.go:229-284 | the pass makes only steps of the protocol and none is refused; it reports no error exactly if no call and no start has failed, and then it has dealt with every record and made as many starts as the waiting jobs needed and the circuit breaker allowed, with no VM retired if there were any |
| Controller.Controller.Resize | internal/controller/controller.go:250-284 | scales down, measures the need and starts that much, as far as the circuit breaker allows |
| Controller.Controller.FiledPass | internal/controller/controller.go:213-227 | FinishPool is called once, with a success for a pass in which nothing has failed, and which was whole, and with a failure for one in which a call or a start has failed |
| Controller.Controller.ReconcilePool | internal/controller/controller.go:201-284 | the same from StartPool on, and nothing is filed only if StartPool or the first setProgress has failed; without an error the run is in the row as succeeded |
| Controller.Controller.ComeUp | internal/app/app.go:71-73 | a process that comes up leaves no run running |
| Controller.Controller.RunPool | internal/app/app.go:191-208 | over any number of passes and deaths at any point, every moment is within the limits and the rate limit, no guard ever refuses a call, and every deletion is of an orphan or belongs to the cleanup under way of its own record |
| Bookkeeping.FinishedExactly | internal/controller/controller.go:201-227 | a pass that is not cut off calls FinishPool for its run if and only if StartPool and the first setProgress have succeeded, and for no other run |
| Bookkeeping.FilingsKept | internal/controller/controller.go:213-227 | the filings of a run are the calls of FinishPool in its journal, in order, each with its run and state |
| Bookkeeping.LeftRunning | internal/controller/controller.go:206-212 | otherwise a run that was started stays in the row as running, through any death of the process, until the pool's next StartPool or InterruptPools |
| Bookkeeping.InterruptedFirst | internal/app/app.go:71-73 | in every run no run of a pool is started before InterruptPools has succeeded in the same process |
| Bookkeeping.NothingOverwritten | internal/app/app.go:71-73 | from then until the next start the row holds no running run, so that what a dead process left running is filed before another run takes its place |
| Bookkeeping.InterruptedRun | internal/store/pool.go:234-265 | InterruptPools files a run left running as failed and leaves any other row alone |
| Bookkeeping.FinishNeverStale | internal/store/pool.go:130-155 | whenever a pass calls FinishPool the row still holds its run as running, so the fence on the run ID never drops a result |
| Bookkeeping.RowFollowsStore | internal/store/pool.go:15-32 | the row in the protocol moves as the transactions of the store move it, and those of other pools leave it alone |
| Fleet.Isolation | internal/controller/observation.go:66-76 | a pool's call on the shared stores has its effect in the pool's own view and none in that of any other pool |
| Fleet.NewName | internal/controller/bootstrap.go:26-27 | the name of a new record is new to the shared tables and to all VMs, although only the pool's own were looked at |
| Fleet.FirstStart | internal/app/app.go:30-60 | shared stores that are consistent, however much they hold, give every pool a sound start |
| Fleet.RunsAsIfAlone | internal/app/app.go:191-208 | however the steps of all pools interleave, what each pool sees and does is a legal run of that pool alone |
| Fleet.TaggedBound | internal/incus/instance.go:344-353 | from any start, in the shared stores the VMs with a pool's tag stay within that pool's max_instances, or within what there was of them to begin with |
| Config.CheckName | internal/config/config.go:501-512 | accepts exactly one to forty lower-case ASCII letters, digits and inner hyphens |
| Config.CheckPool | internal/config/config.go:409-445 | of the checks on names and labels: accepts exactly pools with a valid name and non-empty, distinct labels without colons |
| Config.LabelTextMeans | internal/config/config.go:437-440 | a label is accepted exactly if something is left of it after trimming white space and it holds no colon |
| Config.Validate | internal/config/config.go:323-346 | accepts exactly lists of valid pools with distinct names and distinct primary labels |
| Config.Matches | internal/controller/controller.go:396-410 | a job matches exactly when it names the pool's primary label first and requests every label of the pool |
| Config.CountWaiting | internal/controller/controller.go:241-246 | counts the waiting jobs that match |
| Config.OnePoolPerJob | internal/config/config.go:326-346 | in an accepted configuration a job matches at most one pool |
| Config.DemandCountedOnce | internal/controller/controller.go:241-246 | summed over the pools, a shared job list counts for no more than its waiting jobs |
| Config.DescriptionInjective | internal/controller/bootstrap.go:181-183 | two equal runner descriptions have the same controller and pool |
| Config.InstanceNameTellsPool | internal/controller/bootstrap.go:26-27 | two equal instance names have the same pool, whatever hyphens it contains, and the same ID prefix |
| IncusTags.CreateRequest | internal/incus/instance.go:327-370 | refuses exactly incomplete specs, and otherwise writes the four tags over the user's configuration and keeps all other keys |
| IncusTags.Managed | internal/incus/instance.go:163-190 | lists exactly the instances with the tags, each once and in order, or nothing at all if one of them is no VM |
| IncusTags.CreatedIsManaged | internal/incus/instance.go:344-353 | a created VM is found by its own controller and pool and by no other, whatever the user configured |
| IncusTags.OwnedMeans | internal/incus/instance.go:173-188 | an entry is in the managed list exactly if some instance has the tags and is described by it |
| IncusTags.ManagedAreOwnSpecs | internal/incus/instance.go:173-188 | the managed list is exactly what was created for the controller and pool, each once |
| Tracker.Tracker.Configure | internal/reconcile/tracker.go:69-82 | forgets the pools and keeps the error counters and the last success |
| Tracker.Tracker.PoolStart | internal/reconcile/tracker.go:84-94 | the fields tell the history with this start |
| Tracker.Tracker.SetProgress | internal/reconcile/tracker.go:96-104 | the fields tell the history with this progress |
| Tracker.Tracker.PoolFailure | internal/reconcile/tracker.go:106-125 | the fields tell the history with this failure; the total of errors is the sum of the counters per cause, modulo the width of uint64 |
| Tracker.Tracker.PoolSuccess | internal/reconcile/tracker.go:127-144 | the last success is the latest one after which all pools stood successful |
| Tracker.Tracker.AllSucceeded | internal/reconcile/tracker.go:231-241 | true exactly when the latest result of every pool is a success |
| Tracker.Tracker.FindCondition | internal/reconcile/tracker.go:184-208 | the early returns find the condition whatever order the maps iterate in |
| Tracker.Tracker.TakeSnapshot | internal/reconcile/tracker.go:146-182 | each field is the order-free minimum, maximum or count, and the condition is the one the snapshot's own fields show |
| Tracker.StalledShows | internal/reconcile/tracker.go:184-208 | some pool or progress is late exactly when the earliest times in the snapshot are |
| Tracker.EarliestOneMore | internal/reconcile/tracker.go:243-250 | setEarlier folds the earliest of the times that are set |
| Tracker.SumBumped | internal/reconcile/tracker.go:106-117 | bumping one counter bumps the sum, with wrap-around |
| Tracker.CountersPerCause | internal/reconcile/tracker.go:106-117 | each counter counts the failures with its own stage and code, as long as no stage holds a NUL |
| Tracker.GraceMeans | internal/reconcile/tracker.go:184-186 | the grace is two intervals, but at least thirty seconds |
| Pagination.ParsePageExact | internal/server/pagination.go:30-57 | accepts exactly positive numbers with an allowed size whose offset fits an int |
| Pagination.PageExact | internal/store/pagination.go:8-23 | the look-ahead row is never cut: a page holds exactly its rows and says "more" exactly when rows are left |
| Pagination.PagesPartition | internal/server/pagination.go:59-65 | following has_next yields every row once and in order |
| Pagination.PagesFull | internal/server/pagination.go:59-65 | every page but the last is full |
| ShellQuote.QuoteRoundTrip | internal/bootstrap/cloudinit.go:141-143 | a POSIX shell reads the quoted string back as one word exactly when it holds no NUL |
| ShellQuote.ScriptArguments | internal/bootstrap/cloudinit.go:107-118 | in both lines of the install script the value is one argument and the rest of the line is the script's |

## Left out

- HTTP, JSON, YAML, SQL text, SQLite and the Incus and Forgejo clients: a call is a transaction or an effect with a free outcome.
- Contexts, deadlines and poll periods: a wait is one call with a free result; cancellation shows only as failing calls.
- Columns that no decision reads: `updated_at`, `stage_changed_at`, `finished_at`, `waiting`, `observed_at` and the progress columns of a pool.
- The later `setProgress` calls and `ObservePool` inside a pass are calls that only fail or succeed.
- Incidents inside a pass: the protocol keeps the run and the state of the runtime row, `PoolStore` the failures it counts.
- Provision.StepSafe: `setProgress` is merged with the stage call that follows it, since both errors are handled alike.
- Config.CheckPool: covers the name and the labels, not the scope, the image and the scaling numbers that the same lines check.
- Config.Validate: covers the checks that routing and isolation need, not the remaining single-field checks.
- Protocol.StepKeeps: Go's int overflow in capacity arithmetic is not modelled; the numbers come from a validated configuration.
- Breaker.RateLimit: the retry time of HoldBootstrap is taken at the write, not at the call to the clock just before it.
- Incidents.SummaryReports: characters are bytes here, so that cutting a message can split one of several bytes as the code does.
- Pagination.ParsePageExact: the conversion of text to a number is a parameter, and ints have 64 bits.
- ShellQuote.QuoteRoundTrip: characters that a shell might expand outside quotes are refused by the reader rather than expanded.
- Tracker: the mutex, `MetricData` (copies of fields) and conversion to Unix time.
- Liveness under permanent faults, and creates that Incus completes long after the next sweep: the code does not promise either.
- The web UI, logging, metrics text, certificate and token loading, CLI parsing, schema creation and migration: no deep property.
