# Accounting and recovery in the broker

A model of the part of the broker that decides who may spend free capacity, who owns a
run, and what is believed after a crash, with proofs of the properties that part exists for.

| File | What it models |
|---|---|
| `Quota.dfy` | Meters, periods, the exact charge of a run, compiled limits, budgets |
| `Ledger.dfy` | The in-memory usage store: Reserve, Settle, Reap over maps of counters and reservations |
| `Accounts.dfy` | The ledger over that store: two layers of pools, settlement, refusals, the snapshot admission reads |
| `QuotaSafety.dfy`, `Settlement.dfy` | Whole runs of the ledger under any interleaving: limits, conservation, settling once |
| `RowStore.dfy` | The SQL statements over row tables, and their refinement of the maps |
| `Lifecycle.dfy` | The state machine of one execution |
| `ExecutionStore.dfy` | Dispatch leases, records changed by compare-and-swap, the record writer |
| `Dispatch.dfy` | Running a job task by task, and the verdict rebuilt from records after a crash |
| `ReleaseLoop.dfy`, `Reaping.dfy` | Reconciling lost executions, releasing leftovers, settling abandoned reservations |
| `ReleaseSafety.dfy` | The release loop beside the ledger it asks |
| `AgentRoom.dfy` | A node's room while slow starts run outside its lock |
| `PoolPlacement.dfy` | Placing work on a pool's nodes between their reports |
| `Scheduler.dfy` | Admission, ranking and plans |
| `Waits.dfy` | Backoff and polling intervals |
| `Prelude.dfy` | Options, identifiers, and sums over finite sets |

Methods of the source that change state are methods of classes here, each proved against a
specification of the new state; the properties are lemmas about those specifications. Interleavings are
sequences of steps over the same functions. Providers, the network, clocks and other processes
are parameters: a script of answers, of failures and of what other writers do in between.

Conventions. Integers are unbounded except where the source checks a width (`BaseLimit`). Times
are nanoseconds; an `Instant` carries the calendar keys its time falls in. A ceiling of
`math.MaxInt64` is `NoCeiling`. `millis` is the exact integer ceiling. Scores are reals. IDs are
natural numbers minted in increasing order. `Dispatch` sees the ledger as the set of IDs reserved
on limited providers. Every theorem that needs a write to land says so, and
the compare-and-swap and lease theorems need none to.

Where a property one would expect is false of the code, the model keeps the code, a lemma gives
the input, and the exact condition is proved:

- `Quota.NeverUnderCounts`: the excess of a charge stays strictly below a millisecond of shape exactly when there is a shape.
- `Waits.ClosedForm`: the documented wait holds for every n exactly when the initial wait is within the ceiling; `Waits.Double` says exactly when a value of twice the ceiling is formed on the way.
- `Dispatch.Dispatcher.Run`: the verdict rebuilt from records is the run's own for every job with distinct task names; it always differs for a job with no tasks, and for a repeated name it differs exactly on success. `internal/jobspec/validate.go:234-252` rejects both.
- `RowStore.EmptyReservationDiffers`: a reservation without charges is the one the two stores disagree on; `internal/ledger/ledger.go:215-244` never asks for one.
- `Dispatch.ChangesSufficeExactly`, `Dispatch.FirstStateSkipped`: recording only changes equals recording every poll exactly from a state already recorded; resuming starts from one that is not.
- `ReleaseLoop.NeverWhileLostExactly`: no pass releases or marks an execution while it is lost exactly when its copy was read as lost or ended; every copy read as still going can be marked while lost (`ReleaseLoop.ReleasedWhileLost`), when another writer loses it in between.
- `Reaping.ReapedAsCharged`: the reaper's settlement is the dispatcher's charge exactly when both cost the same on every pool reserved; a bill, or a result timed differently from the provider's status, can differ.
- `Tracking.LandedWritesMatch`: the store holds the writer's copy exactly when no move of it was lost to an outage.
- `AgentRoom.RoomHoldsExactly`: of submissions at declared sizes, a node is never overbooked exactly when each release is harmless at its moment; `AgentRoom.ReleaseRaces` is one that is not.
- `AgentRoom.CountingExactly`, `AgentRoom.TwoSizesExactly`: admission by counting is sound exactly when it counts at least what is in use or nothing more fits, which a resubmission keeps exactly when it is no smaller than what runs or fills the node; `AgentRoom.TwoSizesHide` is one that does not.
- `PoolPlacement.Provider.SubmitTo`: on an error a reservation remains exactly when one was there before and no node was picked.

Where the code and its documentation disagree, the model follows the code: `docs/dispatch.md:43`
and `docs/dispatch.md:132` read a non-zero exit code as the failure, while the verdict is the
provider's terminal state (`internal/dispatch/resume.go:120-121`, `internal/dispatch/outcome.go:76-84`).

## Model

| member | source | states |
|---|---|---|
| Quota.MillisBounds | internal/quota/meter.go:181-187 | a duration is rounded up to the next millisecond, never down and never by a whole one, and a negative one counts as zero |
| Quota.NeverUnderCounts | internal/quota/meter.go:164-177 | a time meter charges at least shape times nanoseconds, and exceeds it by less than a millisecond of shape if and only if the shape is positive |
| Quota.CostMonotone | internal/quota/meter.go:164-177 | a run within another's CPU, memory and duration never costs more, on any meter |
| Quota.CostSubadditive | internal/quota/meter.go:164-177 | splitting a run's duration in two never makes it cheaper, whatever the signs |
| Quota.UnitsAgree | internal/quota/meter.go:85-187 | so many runs, seconds, GiB-seconds or vCPU-seconds cost exactly so many times the scale limits are compiled with, whatever else the run used |
| Quota.BaseLimit | internal/quota/limits.go:110-120 | a limit compiles to limit times scale exactly when that product fits in int64 |
| Quota.NewLimits | internal/quota/limits.go:59-106 | configuration compiles if and only if every pool is named, positive, fits in base units and names are distinct, and then every pool is kept in order in base units |
| Quota.Deltas | internal/quota/limits.go:145-159 | the map built by the loop charges each pool its meter's cost, holds only positive entries, and reads as zero everywhere else |
| Quota.DeltaAt | internal/quota/limits.go:145-159 | with unique pool names, a pool is charged by its own meter |
| Quota.DeltaMonotone | internal/quota/limits.go:145-159 | what a pool is charged is monotone in the shape of the run |
| Quota.FirstExceeded | internal/quota/limits.go:163-184 | the pool returned is over its limit and every earlier one is not; none is returned exactly when none is over |
| Quota.Exceeded | internal/quota/limits.go:163-178 | the early-returning loop finds that first pool |
| Quota.FreePercent | internal/quota/limits.go:192-206 | the loop returns the tightest percentage over the pools charged |
| Quota.TightestOfCharged | internal/quota/limits.go:192-206 | that percentage is at most every charged pool's and is one of theirs; with no pool charged it is a hundred |
| Quota.PercentFloors | internal/quota/limits.go:209-221 | one pool's percentage is what remains of its limit rounded down: a hundred exactly when nothing is used, none exactly when less than a hundredth is left |
| Ledger.AddActualAdds | internal/ledger/memory.go:136-151 | settling adds to each counter the sum of the actual amounts of the charges on it, whatever order the loop takes |
| Ledger.ReservedWithout | internal/ledger/memory.go:136-151 | deleting a reservation takes exactly its amounts off the reserved sum of every counter |
| Ledger.ReservedWith | internal/ledger/memory.go:43-58 | recording a reservation adds exactly its amounts, replacing any under the same ID |
| Ledger.SettleMoves | internal/ledger/memory.go:136-151 | a settle moves each counter's standing by actual minus reserved |
| Ledger.SettleAllHeld | internal/ledger/memory.go:97-133 | a batch of settles removes exactly the reservations listed |
| Ledger.SettleAllMoves | internal/ledger/memory.go:97-133 | what a batch adds to a counter is the sum over its executions, each counted once |
| Ledger.ReapOrderIrrelevant | internal/ledger/memory.go:97-133 | whatever order map iteration gives a reap, the store it leaves is the same |
| Ledger.AmountsOfAt | internal/ledger/memory.go:110-113 | the amounts shown to the resolver are the reservation's charges, each under its own pool |
| Ledger.Memory.StandingUsage | internal/ledger/memory.go:154-166 | the two-level loop returns settled plus reserved usage of every counter |
| Ledger.AddCharges | internal/ledger/memory.go:158-163 | the inner loop adds one reservation's amounts to each counter |
| Ledger.Memory.ReserveFor | internal/ledger/memory.go:43-58 | accepts exactly when every positive capped charge fits, records the whole reservation or nothing, and a refusal returns the usage it was refused against |
| Ledger.Memory.SettleOne | internal/ledger/memory.go:61-68 | settles an open reservation at the actual amounts and deletes it; does nothing to any other |
| Ledger.Memory.ReadUsage | internal/ledger/memory.go:81-94 | returns standing usage of exactly the counters in the periods asked for |
| Ledger.Memory.Reap | internal/ledger/memory.go:97-133 | settles exactly the reservations older than the cutoff that the resolver accepts, each once, at its verdict |
| Accounts.ReservationDistinct | internal/ledger/ledger.go:215-244 | the charges of one reservation land on distinct counters |
| Accounts.ChargesAsConfigured | internal/ledger/ledger.go:215-244 | a reservation charges every pool configured for the provider and every pool the namespace configured for it, each its meter's cost in its calendar period under its limit, and nothing else |
| Accounts.CountersRollOver | internal/quota/meter.go:137-150 | a daily pool's charges share a counter exactly within a day, a monthly pool's exactly within a month |
| Accounts.DeltaSettles | internal/ledger/ledger.go:300-314 | settling at an actual shape prices each reserved counter by that counter's own meter |
| Accounts.NamespaceRecovered | internal/ledger/ledger.go:94-102 | the namespace read back from a reservation's amounts is the one it charged, or the total when the share has no pools |
| Accounts.FinishedIsSettle | internal/ledger/ledger.go:273-297 | reaping an execution as having run for d is settling it with its held shape and d, in both layers |
| Accounts.StandConserves | internal/ledger/ledger.go:273-297 | letting an estimate stand leaves every counter's standing unchanged |
| Accounts.DropReturns | internal/ledger/ledger.go:273-297 | dropping a run removes exactly its reserved amounts and charges nothing |
| Accounts.DecidersAgree | internal/scheduler/checks_condition.go:99-129 | on a snapshot of the same periods with nothing charged since, admission accepts exactly when the store's Reserve does, paying or not |
| Accounts.LayerFits | internal/quota/limits.go:163-184 | one layer's limits exceed a usage exactly when one of its charges does not fit the store |
| Accounts.RefusalNamesFirst | internal/ledger/ledger.go:319-347 | a refusal always names the first charge that does not fit, total before share, with its usage, need and limit; the fallback that names none is unreachable |
| Accounts.UsageLedger.Reserve | internal/ledger/ledger.go:215-244 | charges both layers or neither and a refusal names the pool that was full; wherever either layer has a pool, what does not fit is refused and what is not refused is held |
| Accounts.UsageLedger.Settle | internal/ledger/ledger.go:250-263 | settles an execution at the price of what it did in both layers; wherever either layer has a pool, no reservation of it is left |
| Accounts.UsageLedger.Reap | internal/ledger/ledger.go:273-297 | settles the reservations older than an hour by the resolver's verdict, each once |
| Accounts.UsageLedger.Periods | internal/ledger/ledger.go:395-426 | collects exactly the calendar keys some pool of either layer counts under |
| Accounts.UsageLedger.Refresh | internal/ledger/ledger.go:370-382 | the snapshot it leaves covers every pool of both layers in its current period; a failed read keeps the last one |
| QuotaSafety.LimitedCounts | internal/ledger/ledger.go:215-263 | in a run, wherever either layer has a pool, a reservation that fits is held, one that does not changes nothing, and a settle removes exactly its own |
| QuotaSafety.StepBounded | internal/ledger/memory.go:43-166 | one Reserve, Settle or Reap keeps a counter within its limit plus what paying jobs and overruns added |
| QuotaSafety.SafetyBound | internal/ledger/memory.go:43-166 | over every interleaving, settled plus reserved usage of every counter stays within limit plus paying reservations plus what settles charged beyond their reservations |
| QuotaSafety.HonestRunsAddNothing | internal/ledger/ledger.go:215-314 | when nobody pays and every run stays inside its declared shape, both additions are zero |
| QuotaSafety.NoPoolPassesItsLimit | internal/ledger/ledger.go:215-314 | then no pool of either layer ever passes its limit |
| Settlement.EventMoves | internal/ledger/memory.go:43-166 | one event moves a counter's standing by what it accepts plus settled minus reserved of each reservation it settles |
| Settlement.EventCharges | internal/ledger/memory.go:61-166 | one event charges a counter the sum of what it settles for each execution, each once |
| Settlement.StandingConserved | internal/ledger/memory.go:43-166 | over any run a counter's standing changes by exactly what was accepted on it plus settled minus reserved over every settlement |
| Settlement.StaysOut | internal/ledger/memory.go:43-166 | an ID once minted and out of the store stays out of it and is settled by nothing, whatever events follow |
| Settlement.SettlesOnce | internal/ledger/memory.go:61-151 | in any interleaving of reservations, settles and reaps of every execution, at most one event settles an ID, and what all events charge a counter for it is exactly what that one charges |
| Settlement.ChargedWhereReserved | internal/ledger/memory.go:136-151 | an execution is charged only on counters it was reserved on, in the periods it was reserved in |
| RowStore.SumHolds | internal/state/postgres/sqlc/quota.sql.go:127-211 | the statement's SUM over reservation rows is the reserved sum over the maps |
| RowStore.ReserveRefines | internal/state/postgres/sqlc/quota.sql.go:127-211 | ReserveQuota inserts rows exactly when the map store accepts, and the tables still represent the maps |
| RowStore.EmptyReservationDiffers | internal/state/postgres/quota.go:28-75 | a reservation without charges is accepted by the maps and read as refused by the statement |
| RowStore.SettleRefines | internal/state/postgres/sqlc/quota.sql.go:213-255 | the join and upsert add what the loop adds, never conflict with themselves, and the tables still represent the maps |
| RowStore.JoinAddsActual | internal/state/postgres/sqlc/quota.sql.go:213-255 | joining a reservation's rows with the actual amounts upserts exactly what the loop over charges adds |
| RowStore.JoinNoneTwice | internal/state/postgres/sqlc/quota.sql.go:213-255 | no counter is proposed twice in one statement, so ON CONFLICT never fails |
| RowStore.ReapRefines | internal/state/postgres/quota.go:117-153 | rows and maps may be reaped in different orders and still agree, and count the same |
| RowStore.ReadRefines | internal/state/postgres/sqlc/quota.sql.go:77-101 | ReadQuotaUsage returns standing usage of the counters in the periods asked for |
| RowStore.ReservedRefines | internal/state/postgres/sqlc/quota.sql.go:65-75 | ExecutionReserved answers as the map does |
| RowStore.StepRefines | internal/ledger/memory.go:1-10 | one operation gets the same answer from both stores and keeps them related |
| RowStore.StoresIndistinguishable | internal/ledger/memory.go:1-10 | any sequence of operations gets the same answers from the tables as from the maps |
| RowStore.HeldFromRows | internal/state/postgres/quota.go:187-212 | rows ordered by execution come back as one entry per execution, each whole and none twice |
| RowStore.HeldInIsHeldOf | internal/state/postgres/quota.go:187-212 | the entry rebuilt from rows is the one the maps would show the resolver |
| RowStore.GroupIsHeld | internal/state/postgres/quota.go:117-153 | every group of claimed rows is one stale reservation |
| RowStore.StaleHasGroup | internal/state/postgres/quota.go:117-153 | every stale reservation has its group among the claimed rows |
| RowStore.PostgresStore.ReserveFor | internal/state/postgres/quota.go:28-75 | the loop builds the statement's parallel arrays faithfully and a refusal returns the usage of their periods |
| RowStore.PostgresStore.SettleOne | internal/state/postgres/quota.go:156-170 | the actual amounts are flattened into the statement's arrays, each once |
| RowStore.PostgresStore.ReapGroup | internal/state/postgres/quota.go:136-147 | each group is asked about once and settled exactly when the resolver accepts it |
| RowStore.PostgresStore.Reap | internal/state/postgres/quota.go:117-153 | settles exactly the stale reservations the resolver accepts, each once |
| Lifecycle.RankRises | internal/execution/state.go:99-108 | every legal transition strictly raises the rank, a terminal state has none, and any other may still fail |
| Lifecycle.TransitionsExactly | internal/execution/state.go:99-108 | a state may follow another exactly when it is later, except that a pending execution can only be submitted, failed or cancelled |
| Lifecycle.ToStamps | internal/execution/status.go:48-65 | a move keeps timestamps agreeing with the state, raises the rank, and never loses when the run started |
| Lifecycle.ToRecords | internal/execution/status.go:48-65 | a move writes the state, the time, the first start and the end, and nothing else |
| ExecutionStore.Executions.Begin | internal/state/memory/executions.go:41-52 | records a dispatch once |
| ExecutionStore.Executions.Finish | internal/state/memory/executions.go:56-69 | ends a running dispatch for its stored owner alone |
| ExecutionStore.Executions.Renew | internal/state/memory/executions.go:77-90 | extends the lease of a running dispatch for its stored owner alone |
| ExecutionStore.Executions.Claim | internal/state/memory/executions.go:94-114 | takes over exactly the running dispatches whose lease has lapsed and that are not skipped |
| ExecutionStore.Executions.Create | internal/state/memory/executions.go:138-149 | records an execution ID once |
| ExecutionStore.Executions.Update | internal/state/memory/executions.go:152-167 | replaces a record only from the state it was read in, keeping its release |
| ExecutionStore.Executions.Release | internal/state/memory/executions.go:190-203 | marks a record released and changes nothing else |
| Leases.LeaseExcludes | internal/state/memory/executions.go:56-121 | an owner granted a lease is still the stored owner of a running dispatch while the clock has not passed its deadline, whatever every other process does |
| Leases.RoomForTwoMisses | internal/dispatch/lease.go:31-34 | two failed renewals leave room: the third, three intervals after the grant, is accepted |
| Leases.LapsedIsTaken | internal/state/memory/executions.go:94-114 | once the lease has lapsed the next claim takes the dispatch and the old owner's renewal is refused |
| Leases.TakenOnlyLapsed | internal/state/memory/executions.go:94-114 | a dispatch changes owner only by a claim made after its lease lapsed |
| Leases.DisplacedIsRefused | internal/state/memory/executions.go:56-90 | a displaced owner's renewals and finishes are refused and change nothing until it claims again |
| Leases.EndingIsFinal | internal/state/memory/executions.go:56-69 | an ended dispatch never changes again |
| Leases.FinishedOnce | internal/dispatch/dispatcher.go:245-265 | what the finish that lands writes is what every later reader sees |
| RecordWrites.HistoryIsLegal | internal/state/memory/executions.go:152-167 | under any interleaving of writers a stored record's history is a path through the state machine |
| RecordWrites.AtMostFiveUpdates | internal/execution/state.go:99-108 | at most five updates ever land on one record |
| RecordWrites.FiveIsReached | internal/execution/state.go:99-108 | a legal path of five updates exists |
| RecordWrites.NoUpdateUnseen | internal/state/memory/executions.go:152-167 | a record found again in the state it was read in has not been updated in between |
| RecordWrites.SwapReplacesWhatWasRead | internal/state/memory/executions.go:152-167 | an update that lands overwrites exactly the record its writer read |
| RecordWrites.OneOfTwoLands | internal/state/memory/executions.go:152-167 | of two writers moving a record from the same state, at most one lands |
| RecordWrites.TerminalIsFrozen | internal/state/memory/executions.go:152-167 | a terminal record never changes, but for its release mark |
| RecordWrites.UpdateAndMarkCommute | internal/state/memory/executions.go:152-203 | updating a record and marking it released give the same result in either order |
| Tracking.Tracked.MoveTo | internal/dispatch/track.go:36-50 | a refused move or a move to the same state writes nothing; otherwise the copy moves and one conditional write is made |
| Tracking.AdvanceIsDisciplined | internal/dispatch/track.go:36-50 | every write a tracked record makes is a legal move from the state of its copy |
| Tracking.LostWriteStrands | internal/dispatch/track.go:36-50 | one lost write leaves every later write of that record stale and the record at the last state written, whatever other records others write and whichever they mark |
| Tracking.LandedWritesMatch | internal/dispatch/track.go:36-50 | the store ends up with the writer's copy if and only if none of its moves was lost |
| Dispatch.Watch | internal/dispatch/poll.go:262-294 | the loop records exactly the changes of state, never ends the record and never touches its result or its release |
| Dispatch.ChangesSuffice | internal/dispatch/poll.go:283-291 | once the first state is recorded, recording only changes leaves the record that recording every poll would |
| Dispatch.ChangesSufficeExactly | internal/dispatch/poll.go:283-291 | on every sequence of polls the two agree if and only if the state polling starts from is recorded already or cannot be |
| Dispatch.FirstStateSkipped | internal/dispatch/resume.go:84-95 | a resumed execution whose provider goes on saying running stays recorded as submitted, since polling starts from a state nobody recorded |
| Dispatch.Follow | internal/dispatch/poll.go:171-240 | given up on, lost track of or ended as its provider says, the record ends cancelled, lost or so; the error is the provider call's, or an outage where the provider cancelled; an error never leaves an answered record; the release is marked only once the result is stored |
| Dispatch.RecordSubmission | internal/dispatch/track.go:53-64 | a submission is recorded as submitted and then in the state it reported, with the result it carried |
| Dispatch.Execute | internal/dispatch/poll.go:124-166 | an accepted submission is followed, a finished one is its own answer, an incoherent one is an internal fault; there is no error if and only if the stored record is answered, the result returned is the one stored, and no version stored is marked released without its result |
| Dispatch.TurnTallies | internal/dispatch/dispatcher.go:443-486 | each candidate's turn mints one ID and leaves its reservation standing exactly when no result was stored |
| Dispatch.RecordedSnoc | internal/dispatch/dispatcher.go:443-486 | records are numbered from one and each names the one before it |
| Dispatch.RecordedLinks | internal/dispatch/dispatcher.go:443-486 | every record of a task counts one more than the one before and names it |
| Dispatch.Dispatcher.Prepare | internal/dispatch/dispatcher.go:443-486 | the reservation and the pending record exist before anything is submitted, under one fresh ID, the record naming its dispatch, task, provider, shape and predecessor; a refusal leaves neither |
| Dispatch.Dispatcher.Submit | internal/dispatch/dispatcher.go:396-405 | the record ends as the attempt did, and the reservation is settled exactly when a result came back |
| Dispatch.Dispatcher.TakeTurn | internal/dispatch/dispatcher.go:373-405 | one candidate's turn, whatever its end, writes at most one record and leaves earlier ones alone |
| Dispatch.Dispatcher.TryInOrder | internal/dispatch/dispatcher.go:370-424 | the loop tries each candidate at most once and stops at a turn that ends the task, at one whose error another provider would repeat, or when the ranking or the budget runs out |
| Dispatch.Dispatcher.AttemptTask | internal/dispatch/dispatcher.go:355-434 | providers tried are a prefix of the ranking; exactly a refusal or an infrastructure fault is followed by the next candidate while ranking and budget last, any other fault ends the task; submissions stay within the declared attempts, or one without reroute, with refusals free; every error is explained; records are numbered, linked and of their candidate's provider; what was submitted to a limited provider stays reserved exactly until a result of it is stored |
| Dispatch.Dispatcher.RunTask | internal/dispatch/dispatcher.go:323-345 | a task ends without error exactly when its newest record is answered, and its outcome is that record's |
| Dispatch.TaskEnds | internal/dispatch/resume.go:106-131 | after each task the verdict from records matches how that task ended the run, or the run goes on |
| Dispatch.EndedExactly | internal/dispatch/resume.go:106-131 | over sound records the rebuilt verdict is succeeded exactly when the last record is answered with success and every task has a record, and failed exactly when it is answered with failure |
| Dispatch.FinishedExactly | internal/dispatch/dispatcher.go:228-243 | the state a run is recorded in is unanswered exactly on an error, and succeeded exactly when it has tasks and each came to a result its provider called a success |
| Dispatch.Dispatcher.Run | internal/dispatch/dispatcher.go:278-310 | the verdict rebuilt from the records a run leaves equals the state Finish writes, for every job with tasks and distinct names, and exactly when otherwise; the records are sound after every write on the way, none is released before its result is stored, and no task starts once the lease is seen to be lost |
| Dispatch.ResumeOne | internal/dispatch/resume.go:68-96 | an execution its provider cannot account for is failed before submission and lost after, never answered; one given up on is cancelled, one lost track of lost, any other ends as its provider says, and the copy the verdict reads keeps the result |
| Dispatch.ResumeAll | internal/dispatch/resume.go:50-54 | only unfinished executions are followed, each to the end its provider gives it, and finished ones are untouched |
| Dispatch.Resume | internal/dispatch/resume.go:32-60 | whatever write the run died after, succeeded is declared exactly when the last record is answered with success and every task has one, each recorded as succeeded; failed exactly when the task reached answered with failure, all before it having succeeded |
| ReleaseLoop.MovedKeeps | internal/execution/state.go:99-108 | other writers never move an ended record, and move a lost one only to its end |
| ReleaseLoop.NeverWhileLost | internal/dispatch/release.go:66-119 | an execution read as lost or ended has ended in the store before it is released or marked, whatever other writers do |
| ReleaseLoop.NeverWhileLostExactly | internal/dispatch/release.go:66-119 | no pass over a copy, whatever it meets, releases or marks the record while lost if and only if the copy was read as lost or ended |
| ReleaseLoop.ReleasedWhileLost | internal/dispatch/release.go:66-119 | every record read as still going is marked while lost by a pass that finds its provider gone, when another writer loses it in between |
| ReleaseLoop.ResultBeforeRelease | internal/dispatch/release.go:126-183 | a fetched result is stored before the provider is asked to release what it was read from, and is still stored then |
| ReleaseLoop.GraceResolves | internal/dispatch/release.go:152-156 | any pass a day or more after an execution was lost, whose update does not fail, leaves the stored record terminal |
| ReleaseLoop.EarlyResolution | internal/dispatch/release.go:126-161 | before that, a lost record is resolved if and only if the provider is gone, disowns it or gives its result, and nobody resolved it first |
| ReleaseLoop.LostEndsAs | internal/dispatch/release.go:126-183 | a lost execution is recorded in the terminal state its provider reported only together with the result fetched from it, and otherwise failed without a result; nothing else of it changes but the time |
| ReleaseLoop.DoneIsMarked | internal/dispatch/release.go:66-119 | a pass asks a provider to release exactly an unreserved execution that has a result or is reported over, marks exactly one nothing is held for any more, and reports a release exactly when it marked |
| ReleaseLoop.FailsExactly | internal/dispatch/release.go:66-161 | a pass leaves a lost execution lost without reporting a failure exactly while its provider says it goes on, within a day; on any other it fails exactly when the ledger, the provider or the mark did where it was needed |
| ReleaseLoop.Sweeper.ResolveLost | internal/dispatch/release.go:166-183 | the record is replaced only if still lost and the write lands; otherwise the copy stays lost and the pass fails |
| ReleaseLoop.Sweeper.ReconcileLost | internal/dispatch/release.go:126-161 | the branches on registry, status, result and grace period, as one function of the stored record |
| ReleaseLoop.Sweeper.ReleaseLeftover | internal/dispatch/release.go:66-119 | one pass does to its record what the function says and touches no other |
| ReleaseLoop.Sweeper.ReleaseLeftovers | internal/dispatch/release.go:35-60 | the loop makes one pass over each listed record in turn, whatever fails, and counts those released |
| ReleaseLoop.SweptAt | internal/dispatch/release.go:35-60 | afterwards each listed record is as a pass over it alone would leave it, whatever became of the others and whoever moved it since it was listed |
| ReleaseLoop.SweptElsewhere | internal/dispatch/release.go:35-60 | no record that was not listed changes, and none appears or goes |
| ReleaseLoop.SweptCounts | internal/dispatch/release.go:35-60 | the number reported is of the passes that marked their execution released |
| ReleaseLoop.NoneOutstays | internal/dispatch/release.go:152-156 | after the loop no listed record that has been lost for a day is still lost, unless the store failed its update |
| ReleaseSafety.NeverWhileReserved | internal/dispatch/release.go:80-119 | no reservation of an execution stands in the store when it is released or marked, nor ever after, whatever reservations, settles and reaps happen before the question and since |
| ReleaseSafety.NothingLeftToSettle | internal/dispatch/release.go:62-65 | after a release no event settles that execution any more, so no reap ever has to ask about it |
| Reaping.StampedIsSettled | internal/dispatch/reap.go:32-54 | from a provider with consistent timestamps a reservation is kept exactly while the run may go on, and settled at the time it ran after, never dropped or left to the estimate |
| Reaping.ReapedAsCharged | internal/dispatch/dispatcher.go:504-526 | the reaper's settlement of a finished execution equals the charge its dispatcher would have made for the result, the bill where there is one, if and only if both cost the same on every pool reserved, as they do when nothing was billed and the result ran as long |
| Reaping.ReapLeaves | internal/dispatch/reap.go:27-54 | a reap removes a reservation exactly when it is over an hour old and its provider disowns it, has no status or reports it over; it charges nothing for one disowned, the time it ran where known, and else the estimate |
| Reaping.FreesOnlyOnAnswer | internal/dispatch/reap.go:27-54 | the reaper frees quota only for an execution its provider disowns or reports over; anything else leaves every counter standing where it did |
| AgentRoom.RoomHolds | internal/agent/executions_endpoint.go:103-183 | over every interleaving of submissions, starts, exits and releases, running workloads plus starts not yet held stay within capacity in CPU and memory, and no ID has two starts in flight |
| AgentRoom.StepKeeps | internal/agent/executions_endpoint.go:128-183 | each step keeps that, given one declared size per ID and no harmful release |
| AgentRoom.StepExactly | internal/agent/executions_endpoint.go:128-243 | of submissions at declared sizes, a step keeps the node within capacity if and only if it is no release of a finished workload with a start in flight that would no longer fit |
| AgentRoom.RoomHoldsExactly | internal/agent/executions_endpoint.go:103-243 | and a run does at every step if and only if every release in it was harmless at its moment |
| AgentRoom.SubmissionRuns | internal/agent/executions_endpoint.go:75-183 | a submission left to itself ends running with nothing reserved when it is new and fits, and changes nothing otherwise |
| AgentRoom.ExitFrees | internal/agent/executions_endpoint.go:148-183 | an exit gives back exactly its workload's size |
| AgentRoom.CountingExactly | internal/agent/executions_endpoint.go:148-183 | whatever the sizes submitted, admitting any next workload by counting overbooks nothing if and only if what is counted covers what is in use or is past capacity |
| AgentRoom.Resubmitted | internal/agent/executions_endpoint.go:148-183 | resubmitting a running workload changes nothing in use, and replaces its size in what is counted |
| AgentRoom.TwoSizesExactly | internal/agent/executions_endpoint.go:148-183 | after a resubmission admission stays sound if and only if the size is no smaller than the one running or fills the node as it is |
| AgentRoom.Sizes | internal/agent/executions_endpoint.go:148-183 | what a submission counts covers what is in use |
| AgentRoom.ReleaseRaces | internal/agent/executions_endpoint.go:239-243 | a release racing a resubmission overbooks a full node |
| AgentRoom.TwoSizesHide | internal/agent/executions_endpoint.go:148-183 | resubmitting a running workload at a smaller size lets the next one overbook the node |
| AgentRoom.Endpoint.SumHeld | internal/agent/executions_endpoint.go:156-169 | the loop over held workloads counts each running one that is not reserved, once, and stops at a resubmission |
| AgentRoom.Endpoint.HasRoom | internal/agent/executions_endpoint.go:148-183 | admits exactly a resubmission or a workload that fits beside each running or reserved one counted once |
| AgentRoom.Endpoint.TryClaim | internal/agent/executions_endpoint.go:128-144 | claims room for an ID not in flight that fits; anything else changes nothing |
| AgentRoom.Endpoint.Release | internal/agent/executions_endpoint.go:109-114 | releasing a claim never takes away another start's reservation |
| PoolPlacement.ReserveTakes | internal/providers/pool/pool.go:169-189 | a reservation takes its declared size off its own node alone |
| PoolPlacement.FreshTakesRoom | internal/providers/pool/pool.go:169-189 | a reservation on a node that has not reported it takes its size for two minutes; one reported, one elsewhere and one older take nothing |
| PoolPlacement.FreeIsUnsent | internal/providers/pool/pool.go:169-189 | what is free on a node is what it has to spare less the sizes of everything sent to it, unreported and no older than two minutes |
| PoolPlacement.UnreserveFrees | internal/providers/pool/pool.go:279-284 | withdrawing a reservation never costs a node room |
| PoolPlacement.TickFrees | internal/providers/pool/pool.go:182-186 | time passing never costs a node room |
| PoolPlacement.NeverOverbooked | internal/providers/pool/pool.go:243-284 | between reports no interleaving of placements, withdrawals and time takes a node's free CPU or memory below zero |
| PoolPlacement.SentNeverExceeds | internal/providers/pool/pool.go:243-284 | between reports the sizes sent to a node and not reported back never add up to more than it had to spare, in CPU or in memory |
| PoolPlacement.Provider.FreeOn | internal/providers/pool/pool.go:169-189 | the loop returns what is spare less each unreported, unexpired reservation on the node |
| PoolPlacement.Provider.ReserveRoom | internal/providers/pool/pool.go:243-276 | picks, of the nodes asked for and not tried that have room in CPU and memory, the first with the most memory free, and holds that room, or finds there is none |
| PoolPlacement.Provider.SubmitTo | internal/providers/pool/pool.go:204-238 | whatever other submissions, nodes and reports do meanwhile, it ends, tries no node twice, each there at the time and passed over for room, and on an error leaves a reservation if and only if one was there before and no node was picked |
| Scheduler.OneOrder | internal/scheduler/admission.go:176-184 | two ordered sequences of the same elements are equal, so any sort gives the same list |
| Scheduler.LessTotal | internal/scheduler/admission.go:176-184 | distinct names are always ordered one way or the other |
| Scheduler.LessTransitive | internal/scheduler/admission.go:176-184 | the order of names is transitive |
| Scheduler.LessIsLexicographic | internal/scheduler/admission.go:176-184 | names are ordered as a dictionary orders them |
| Scheduler.AdmitOne | internal/scheduler/admit.go:178-198 | passes exactly when every rule passes; otherwise the first reason leads and the rest follow in order |
| Scheduler.FailuresConcat | internal/scheduler/admit.go:178-198 | every rule is asked, and reasons come in the order of the rules |
| Scheduler.PassingIff | internal/scheduler/admit.go:145-163 | the members returned are exactly those that pass every rule |
| Scheduler.MembersStandAlone | internal/scheduler/admit.go:145-163 | a member passes exactly when a provider of its capabilities and labels would |
| Scheduler.DecidedOnce | internal/scheduler/admit.go:133-170 | the verdict on a provider is determined by the provider and the rules |
| Scheduler.AdmitProvider | internal/scheduler/admit.go:133-170 | a pool is admitted if and only if some member passes every rule by itself, with exactly those members; otherwise the first of the members that failed fewest speaks for it, by name and with its reasons |
| Scheduler.SortByName | internal/scheduler/admission.go:176-184 | the result is a permutation ordered by name |
| Scheduler.Admit | internal/scheduler/admit.go:92-123 | every input is a candidate or a rejection and not both, each list ordered by name |
| Scheduler.AdmissionOnce | internal/scheduler/admit.go:92-123 | admission depends on which inputs there are, not on their order |
| Scheduler.MeasureTiers | internal/scheduler/rank.go:227-239 | the span is the least and greatest tier among the candidates, both attained |
| Scheduler.ScoreInRange | internal/scheduler/rank.go:140-182 | every scorer and their mean stay between zero and one |
| Scheduler.TierScoreFalls | internal/scheduler/rank.go:244-250 | the lowest tier scores one, the highest zero, and a lower tier never less |
| Scheduler.FreeFirst | internal/scheduler/rank.go:204-214 | between candidates of one tier with the same preferences matched, more of the tightest allowance left ranks first in either mode, and equal allowances leave it to the name |
| Scheduler.FreeIsTightest | internal/scheduler/rank.go:204-214 | the allowance compared is the least left of any pool charged, of the provider's total or the namespace's share |
| Scheduler.PreferenceEnds | internal/scheduler/rank.go:155-162 | a candidate matching every preference scores one for it, one matching none zero, and no preference is scored where none is stated |
| Scheduler.Place | internal/scheduler/rank.go:126-134 | a stable sort puts a candidate behind everything it is not ahead of |
| Scheduler.Rank | internal/scheduler/rank.go:117-137 | the ranking is a permutation of the scored candidates ordered by tier, score descending and name under strict tiers, by score descending and name under weighted ones |
| Scheduler.PreferredStandsAhead | internal/scheduler/rank.go:117-182 | in a ranking a lower tier stands ahead under strict tiers, and else whatever is better in allowance left, in tier or in preferences matched, and worse in none |
| Scheduler.PlanTask | internal/scheduler/plan.go:24-33 | admission and ranking together place every input on one of the plan's two lists, and the plan is worth retrying exactly when nothing was admitted and some rejection is of quota, of a disabled or of an unhealthy provider |
| Scheduler.PlanIgnoresOrder | internal/scheduler/plan.go:24-33 | any permutation of the inputs gives the same ranking, rejections and retryability |
| Scheduler.RejectedDoNotMatter | internal/scheduler/rank.go:223-239 | adding or removing providers that are rejected does not change the ranking |
| Waits.ClosedForm | internal/dispatch/retry.go:95-110 | the wait is the smaller of initial doubled n times and the ceiling, for every n, exactly when the initial wait is within the ceiling |
| Waits.WaitsGrow | internal/dispatch/retry.go:95-110 | waits never shrink and never pass the ceiling |
| Waits.Double | internal/dispatch/poll.go:61-72 | the loop computes that form, and forms a value of twice the ceiling exactly when the first wait is already at it and is doubled, or starts out that large |
| Waits.Interval | internal/dispatch/poll.go:61-72 | the polling schedule is that loop |
| Waits.BackoffBefore | internal/dispatch/retry.go:95-110 | the first attempt never waits and attempt n waits for n minus one doublings |
| Waits.RetryPolicy | internal/dispatch/retry.go:46-78 | each setting is the one declared where usable and the default otherwise, so there is at least one attempt and waits are positive |

## Left out

- Calendar formatting of period keys: an `Instant` carries its day and month key.
- Float rounding in `millis` and in the scorers, and int64 wrap-around outside `baseLimit`.
- Postgres transactions, row locks, SKIP LOCKED and serialization retries: each statement is one atomic step.
- RowStore.PostgresStore.Reap: does not model the transaction around the Postgres reap; its claimed rows are the stale ones of one state.
- Log streaming, bounded output, progress events and the text of reasons, details and errors.
- The timing of the renewal goroutine: `Leases` covers what the store accepts whenever a renewal arrives, and `Run` is told before each task whether the lease was lost.
- The cancel call on work the caller gave up on, whose outcome nothing reads.
- Dispatch.Dispatcher.Run: does not model store outages between records, which `Tracking.LostWriteStrands` covers for one record; its verdict is of the records as written.
- The credential refresh around provider calls, and the kinds of error beyond infrastructure, internal and unclassified.
- A failure to mint an ID, and the exact form of IDs.
- A node's `Used` loop, live capabilities, and reports: a node is what it last reported.
- The individual admission checks and constraint matching: the rules are any pure functions of an input, except the quota rule, which `Accounts.DecidersAgree` covers.
- Unknown meters and periods, which configuration rejects.
- The HTTP API, the command line, job and configuration decoding, gRPC and the provider plugins themselves.
