# Verified model of the DPA packet-processor scheduler

A Dafny model of the device side of the packet processor: the per-tenant budget engine of the
scheduler, the concurrent accounting protocol between one scheduler and its workers, the
completion and send rings, and the MAC swap. The whole project verifies with
`dafny verify dfyconfig.toml`.

## How it is organised

| file | contents |
|---|---|
| `Words.dfy` | 64- and 32-bit words with explicit wrap-around, finite sums |
| `Budget.dfy` | tenants, accounts and the rollover in its three modes, on mathematical integers |
| `Bucket.dfy`, `Drf.dfy` | how the pools are shared in modes `BUCKET` and `DRF` |
| `Rollover.dfy`, `Runs.dfy` | laws of one rollover, and of whole runs: ledger, isolation, repayment |
| `Apportion.dfy` | initial targets and caps from weights |
| `Scheduler.dfy` | `struct dpa_sche_context` as a class over 64-bit arrays; its loops refine `Budget.dfy` |
| `Protocol.dfy` | scheduler and workers as an interleaving of atomic steps |
| `Interleaving.dfy`, `Collection.dfy`, `Guarantees.dfy` | invariants of every interleaving, and what follows |
| `Enforcement.dfy`, `Service.dfy` | that overuse is caught and rollovers come when due; that packets are paid and tenants served |
| `Rate.dfy`, `Limits.dfy` | how fast cycles can be used, and why no word wraps, in every interleaving |
| `Handshake.dfy` | the `EU_OFF` / `EU_FREE` / `EU_HANG` status word |
| `Ring.dfy`, `CompletionQueue.dfy`, `ReceiveCredits.dfy` | owner-bit completion ring, polling, receive credits |
| `SendRing.dfy` | the pre-built send ring |
| `MacSwap.dfy` | the two MAC swaps |

The number of tenants, workers and schedulers is arbitrary. The tenant loops change arrays in
place; each is proved equal to a function of the old state, and the laws are proved about that
function. The compile-time switches `SCH_ROLLOVER_WORK_CONSERVING` and `assert_debug` are
parameters, so one statement covers every build.

The protocol gives each access to shared memory its own step. Its only hypothesis about
magnitudes is that fewer than 2^64 cycles (or bytes) were ever charged to the tenant a statement
is about (`Counted`); from that it follows that no counter wraps and no debt saturates. Without it
the conservation law still holds modulo 2^64.

Sequentially consistent atomics, a clock that does not run backwards, in-order completions with
one completion for each posted receive, and a stamp that alternates with each lap of the
completion ring are assumptions about the platform; `CompletionQueue.Complete` and
`ReceiveCredits.HardwareStep` are the hardware's part in them. The handshake needs one more, stated as
`Handshake.Prompt`: the worker does not finish a whole batch between the scheduler's wakeup and
its store of `EU_HANG`. `LostExactlyWhenNotPrompt` and `WakeupCanBeLost` show that a wakeup is lost
exactly when that is violated.

Limits under which the 64-bit code does not wrap: in mode `DRF` the caps of each resource together
stay below 2^44 (`DRF_LIMIT`), in mode `BUCKET` below 2^64, in mode `OFF` none. Initialisation
establishes the stronger limit for every configuration with at most 190 threads, weights with a
positive sum that fits in 32 bits, and every scheduler count; rollovers keep it, and so does every
step of every interleaving (`Limits.NothingOutgrows`).

## Model

| member | source | states |
|---|---|---|
| Scheduler.SchedulerContext.RecordDebt | packet_processor/dev/flexio_pp_dev_sch.c:75-91 | for all words the wrap test amounts to saturating addition of the overshoot |
| Scheduler.SchedulerContext.PayDebt | packet_processor/dev/flexio_pp_dev_sch.c:93-108 | budget and debt of one tenant shrink by the smaller of the two; no other tenant changes |
| Scheduler.SchedulerContext.PayDebts | packet_processor/dev/flexio_pp_dev_sch.c:110-117 | every tenant pays, whatever the order |
| Scheduler.SchedulerContext.Settle | packet_processor/dev/flexio_pp_dev_sch.c:121-134 | the budget becomes target plus what was not used, up to the cap; the rest is returned |
| Scheduler.SchedulerContext.Receive | packet_processor/dev/flexio_pp_dev_sch.c:136-151 | the budget takes the smaller of its room and the pool; the remainder of the pool is returned |
| Scheduler.SchedulerContext.ReclaimOverTarget | packet_processor/dev/flexio_pp_dev_sch.c:207-219 | the budget is cut to the target and the excess returned |
| Scheduler.SchedulerContext.CheckBudget | packet_processor/dev/flexio_pp_dev_sch.c:48-73 | a set flag stays; a free tenant becomes restricted for bytes if it has used as many as its byte budget, else for cycles if it has used as many as its cycle budget, else stays free; sound flags stay sound |
| Scheduler.SchedulerContext.ResetTenant | packet_processor/dev/flexio_pp_dev_sch.c:434-445 | mode OFF for one tenant: counters zeroed, overshoot recorded, budgets back to targets, flag cleared, others untouched |
| Scheduler.SchedulerContext.RolloverOff | packet_processor/dev/flexio_pp_dev_sch.c:429-454 | computes the specified rollover of mode OFF; all flags cleared and counters zero |
| Scheduler.SchedulerContext.CollectAndSettle | packet_processor/dev/flexio_pp_dev_sch.c:162-179 | pass one for one tenant: new state, both spills, and that no other tenant changes |
| Scheduler.SchedulerContext.CollectAll | packet_processor/dev/flexio_pp_dev_sch.c:161-188 | pass one: every tenant settled and the pools are the unwrapped sums of the offers |
| Scheduler.SchedulerContext.ReceiveBoth | packet_processor/dev/flexio_pp_dev_sch.c:194-199 | both accounts of one tenant fill from the pools; exact leftovers |
| Scheduler.SchedulerContext.ReceiveAll | packet_processor/dev/flexio_pp_dev_sch.c:193-202 | each tenant gets the smaller of its room and what the rooms before it left; all flags cleared |
| Scheduler.SchedulerContext.RolloverBucket | packet_processor/dev/flexio_pp_dev_sch.c:154-205 | computes the specified rollover of mode BUCKET; flags cleared, counters zero, no sum wraps |
| Scheduler.WordRatio | packet_processor/dev/flexio_pp_dev_sch.c:227-235 | below 2^44 the shift loses nothing |
| Scheduler.WordAlloc | packet_processor/dev/flexio_pp_dev_sch.c:237-241 | when the product fits in a word it is the exact floor |
| Scheduler.SchedulerContext.BoundAccount | packet_processor/dev/flexio_pp_dev_sch.c:263-277 | room and target of the account that a restricted tenant is held back for |
| Scheduler.SchedulerContext.SumClaims | packet_processor/dev/flexio_pp_dev_sch.c:253-281 | smallest room ratio of the restricted tenants and the target sums per resource |
| Scheduler.SchedulerContext.FindCommonDelta | packet_processor/dev/flexio_pp_dev_sch.c:253-291 | the common ratio on words equals the specified one |
| Scheduler.SchedulerContext.GrantFromPool | packet_processor/dev/flexio_pp_dev_sch.c:307-345 | with and without the debug clamps the same budget and the same remaining pool, without underflow |
| Scheduler.SchedulerContext.GrantAll | packet_processor/dev/flexio_pp_dev_sch.c:296-346 | every restricted tenant gets its unclamped grant, in both builds |
| Scheduler.SchedulerContext.DistributeDrfPool | packet_processor/dev/flexio_pp_dev_sch.c:243-347 | debug and shipped build compute the same state, that of the unclamped specification |
| Scheduler.SchedulerContext.CollectAndReclaim | packet_processor/dev/flexio_pp_dev_sch.c:359-398 | pass one of mode DRF for one tenant: settled state and both offers, others untouched |
| Scheduler.SchedulerContext.CollectActive | packet_processor/dev/flexio_pp_dev_sch.c:358-399 | pass one of mode DRF: all tenants settled, pools exact, count of restricted tenants and one of them |
| Scheduler.SchedulerContext.ShareActive | packet_processor/dev/flexio_pp_dev_sch.c:404-421 | none, one or several restricted tenants: the specified sharing, and every flag cleared |
| Scheduler.SchedulerContext.RolloverDrf | packet_processor/dev/flexio_pp_dev_sch.c:349-424 | computes the specified rollover of mode DRF in both builds; flags cleared, counters zero, nothing wraps |
| Scheduler.SchedulerContext.RolloverBudget | packet_processor/dev/flexio_pp_dev_sch.c:153-455 | every mode refines its specification and keeps what the next rollover needs |
| Scheduler.SchedulerContext.InitAccounts | packet_processor/dev/flexio_pp_dev_utils.c:125-135 | targets are the floor-divided shares, caps twice that, budgets full, counters zero, no product or sum wraps |
| Scheduler.SchedulerContext.InitCycleAccounting | packet_processor/dev/flexio_pp_dev_utils.c:107-147 | opened cycle accounts, no debt, no flag, for at most as many tenants as the table has |
| Scheduler.SchedulerContext.InitBandwidthAccounting | packet_processor/dev/flexio_pp_dev_utils.c:149-181 | opened bandwidth accounts; cycle side untouched |
| Scheduler.SchedulerContext.InitAccounting | packet_processor/dev/flexio_pp_dev_utils.c:208-209 | initial tenants are valid and within the limits of every mode |
| Apportion.BudgetCap | packet_processor/dev/flexio_pp_dev_utils.c:99-105 | the cap is never below the target, and twice the target when that fits |
| Apportion.Apportioned | packet_processor/dev/flexio_pp_dev_utils.c:117-133 | targets sum to at most the base budget and fall short by less than the number of tenants |
| Apportion.LinkIsNotOversold | packet_processor/dev/flexio_pp_dev_utils.c:155-172 | over all schedulers the bandwidth targets stay within the link, despite nested flooring |
| Apportion.LinkIsUsed | packet_processor/dev/flexio_pp_dev_utils.c:154-169 | the bandwidth targets of all schedulers together fall short of the link by less than the number of tenants |
| Apportion.OneSchedulerHasTheLink | packet_processor/dev/flexio_pp_dev_utils.c:154-156 | a scheduler count of zero gives the whole link, as one does: 90 Gbit/s over 8 bits and 1000 periods |
| Apportion.CycleBaseIsExact | packet_processor/dev/flexio_pp_dev_utils.c:113-118 | the base is 84.83% or 78.00% of the threads' cycles in a period, rounded down, by the location of the buffers |
| Apportion.InitialShares | packet_processor/dev/flexio_pp_dev_utils.c:129-145 | each tenant's own share of each base, exactly rounded, as target and budget, and twice that as cap |
| Apportion.InitialTenantsFit | packet_processor/dev/flexio_pp_dev_utils.c:129-145 | initial budgets are valid; caps sum to at most twice the base |
| BucketSharing.HandsOutAllThatFits | packet_processor/dev/flexio_pp_dev_sch.c:193-202 | after any number of tenants the grants are the smaller of pool and rooms |
| BucketSharing.WorkConserving | packet_processor/dev/flexio_pp_dev_sch.c:136-151 | the total grant is exactly min(pool, sum of rooms) |
| BucketSharing.LeftoverMeansAllFull | packet_processor/dev/flexio_pp_dev_sch.c:193-202 | a pool is left over only if every tenant is at its cap |
| DrfSharing.RatioIsLargest | packet_processor/dev/flexio_pp_dev_sch.c:227-235 | the Q20 ratio is the largest factor within the amount, both directions |
| DrfSharing.MinRatioIsLargest | packet_processor/dev/flexio_pp_dev_sch.c:254-281 | the loop's minimum is the largest ratio that fits every room and the cap |
| DrfSharing.DeltaIsLargest | packet_processor/dev/flexio_pp_dev_sch.c:251-291 | a ratio is at most the common one if and only if cap, all rooms and both pools admit it |
| DrfSharing.AllocSums | packet_processor/dev/flexio_pp_dev_sch.c:296-346 | sums of floors against the exact product, from both sides |
| DrfSharing.ClampsAreRedundant | packet_processor/dev/flexio_pp_dev_sch.c:307-345 | any prefix of unclamped grants fits in the pool and each fits in its room |
| DrfSharing.Fair | packet_processor/dev/flexio_pp_dev_sch.c:314-334 | grants are in proportion to targets up to one unit of rounding |
| DrfSharing.RoundingLoss | packet_processor/dev/flexio_pp_dev_sch.c:284-291 | a pool that sets the ratio leaves less than claims/2^20 plus one unit per claimant |
| DrfSharing.ZeroRatio | packet_processor/dev/flexio_pp_dev_sch.c:292-294 | returning early on a zero ratio skips nothing |
| RolloverLaws.GrantsFit | packet_processor/dev/flexio_pp_dev_sch.c:193-202 | in every mode the grants fit in the pool and in each room |
| RolloverLaws.CheckIsExact | packet_processor/dev/flexio_pp_dev_sch.c:56-71 | the specified flag, value by value, as both comparisons decide it |
| RolloverLaws.FreeGainNothing | packet_processor/dev/flexio_pp_dev_sch.c:303-305 | in mode DRF a tenant that is not restricted is unchanged by sharing |
| RolloverLaws.SingleTakesAll | packet_processor/dev/flexio_pp_dev_sch.c:404-410 | the only restricted tenant ends at min(cap, budget + pool) for both resources; all others are unchanged |
| RolloverLaws.SeveralShare | packet_processor/dev/flexio_pp_dev_sch.c:411-414 | among several, each grows by the common ratio of its target, rounded down, and only in the resource it is restricted for |
| RolloverLaws.FullExtensionReachesCap | packet_processor/dev/flexio_pp_dev_utils.h:70-73 | the largest ratio takes an account from its target to exactly twice the target |
| RolloverLaws.RolloverKeepsValid | packet_processor/dev/flexio_pp_dev_sch.c:153-455 | budgets stay within caps, configuration is unchanged, no tenant has both budget and debt |
| RolloverLaws.TargetReached | packet_processor/dev/flexio_pp_dev_sch.c:121-134 | before debt is paid every budget is at least its target, in every mode |
| RolloverLaws.ReclaimSettles | packet_processor/dev/flexio_pp_dev_sch.c:386-398 | DRF settles like BUCKET and then cuts only the restricted account |
| RolloverLaws.RestrictedBudgetsAreProportional | packet_processor/dev/flexio_pp_dev_sch.c:349-424 | after a DRF rollover with several restricted tenants their budgets are in proportion to their targets up to one unit |
| RolloverLaws.PoolsAreBounded | packet_processor/dev/flexio_pp_dev_sch.c:172-179 | every pool and target sum is at most the sum of the caps |
| RolloverLaws.RolloverLedger | packet_processor/dev/flexio_pp_dev_sch.c:153-455 | budgets minus debts change by targets minus use, minus what is dropped, plus what saturation forgets |
| RolloverLaws.PoolLedger | packet_processor/dev/flexio_pp_dev_sch.c:121-151 | cycles and bytes alike: budgets after sharing plus what is left in the pool are the targets plus what was not used |
| RunLaws.RunLedger | packet_processor/dev/flexio_pp_dev_sch.c:153-455 | N rollovers from initialisation account for N+1 times the targets, exactly |
| RunLaws.DebtWithinUse | packet_processor/dev/flexio_pp_dev_sch.c:75-108 | over a whole run a tenant never owes more than it used |
| RunLaws.NothingLost | packet_processor/dev/flexio_pp_dev_sch.c:86-89 | debt does not saturate while no tenant has used 2^64 cycles |
| RunLaws.ExactLedger | packet_processor/dev/flexio_pp_dev_sch.c:153-455 | the run ledger without a loss term |
| RunLaws.Isolated | packet_processor/dev/flexio_pp_dev_sch.c:121-151 | in BUCKET and DRF a tenant always has at least what a private token bucket with its own use would have, and owes no more |
| RunLaws.SharingBeatsOff | packet_processor/dev/flexio_pp_dev_sch.c:349-454 | two runs with the same own use: sharing never leaves less budget or more debt than mode OFF |
| RunLaws.Ceiling | packet_processor/dev/flexio_pp_dev_sch.c:121-151 | in every mode use plus budget of one tenant stay within its target, its cap for each rollover and its debt |
| RunLaws.DebtStep | packet_processor/dev/flexio_pp_dev_sch.c:75-108 | one rollover lowers debt plus new overshoot by at least the target |
| RunLaws.ModestOvershoot | packet_processor/dev/flexio_pp_dev_sch.c:75-108 | overshoot of at most the target never raises a debt |
| RunLaws.DebtIsRepaid | packet_processor/dev/flexio_pp_dev_sch.c:93-117 | without overshoot, N rollovers repay N targets; debt/target rounded up are enough |
| RunLaws.DebtorIsHeldBack | packet_processor/dev/flexio_pp_dev_sch.c:62-64 | a tenant in debt after a rollover is flagged by the next check even if it used nothing |
| Interleaving.WorkerConserves | packet_processor/dev/flexio_pp_dev_tnt3.c:57-60 | a fetch-add keeps charged = collected + live modulo 2^64 |
| Interleaving.SchedulerConserves | packet_processor/dev/flexio_pp_dev_sch.c:166-169 | an exchange moves exactly the live counter to the collected side |
| Interleaving.WorkerKeepsEarned | packet_processor/dev/flexio_pp_dev_tnt3.c:49-60 | no worker step invalidates a restriction or a comparison the scheduler has in hand |
| Interleaving.SchedulerKeepsEarnedAt | packet_processor/dev/flexio_pp_dev_sch.c:56-71 | every scheduler step keeps: restricted and not yet collected implies used up |
| Interleaving.SchedulerReleases | packet_processor/dev/flexio_pp_dev_sch.c:415-420 | which flags a rollover has cleared at each of its steps |
| Collection.SchedulerStaysLinked | packet_processor/dev/flexio_pp_dev_sch.c:161-204 | at every step of an interleaved rollover the accounts are where the specification says for the uses collected |
| Collection.SchedulerCollectsAt | packet_processor/dev/flexio_pp_dev_sch.c:166-169 | what exchanges returned is what the closed periods and the current rollover contain |
| Collection.SchedulerStaysSoundAt | packet_processor/dev/flexio_pp_dev_sch.c:362-398 | every rollover sees sound flags, now and in all earlier periods |
| Collection.SchedulerKeepsPace | packet_processor/dev/flexio_pp_dev_sch.c:570-587 | every step keeps the deadline a period later for each rollover begun since initialisation, and at most a period ahead of the clock |
| Guarantees.BehaviourInv | packet_processor/dev/flexio_pp_dev_sch.c:563-606 | all invariants hold in every state of every interleaving |
| Guarantees.ChargesAreConserved | packet_processor/dev/flexio_pp_dev_tnt3.c:57-60 | per tenant and resource, all fetch-adds equal all exchanged values plus the live counter |
| Service.ChargedIsProcessed | packet_processor/dev/flexio_pp_dev_tnt3.c:52-60 | in every run, what was charged to a tenant plus what workers still hold is the sum of what its packets cost, read off the steps taken |
| Service.EveryPacketIsPaid | packet_processor/dev/flexio_pp_dev_tnt3.c:52-60 | what a tenant's packets cost was collected, is being collected, is in the counter, or is about to be added to it |
| Service.IdleWorkerGoesRound | packet_processor/dev/flexio_pp_dev_tnt3.c:127-141 | a worker that finds nothing visits all tenants in order, modulo their number, for ever |
| Service.FreeTenantIsServed | packet_processor/dev/flexio_pp_dev_tnt3.c:128-141 | a free tenant with packets is served three steps after its visit, whatever others do |
| Service.DrainsUntilLimit | packet_processor/dev/flexio_pp_dev_tnt3.c:46-48 | a worker goes on with a queue just while it is within the cycle limit and packets are ready, and else to the next tenant |
| Service.TurnIsMetered | packet_processor/dev/flexio_pp_dev_tnt3.c:53-55 | what is compared with the limit is the sum of what the packets of this turn cost |
| Service.TurnsAndBatchesEnd | packet_processor/dev/flexio_pp_dev_tnt3.c:46-64 | no turn exceeds the limit by more than one packet; a worker sleeps at 2^20 packets and not before |
| Service.BatchesAreWhole | packet_processor/dev/flexio_pp_dev_tnt3.c:61-64 | every start of a worker is good for exactly 2^20 packets |
| Enforcement.NoneIsPassedOver | packet_processor/dev/flexio_pp_dev_sch.c:56-71 | whenever the check moves past a tenant, it is restricted or both values read for it were below its budgets |
| Enforcement.StoredFlag | packet_processor/dev/flexio_pp_dev_sch.c:62-71 | what the interleaved check stores: bandwidth if the byte counter has reached its budget, else cycles if the count read has, else nothing |
| Enforcement.OveruseIsCaught | packet_processor/dev/flexio_pp_dev_sch.c:48-73 | a tenant that has used up a budget when a pass of the check begins is restricted when it ends, in every interleaving |
| Enforcement.RolloverWhenDue | packet_processor/dev/flexio_pp_dev_sch.c:570-587 | a rollover begins exactly when the clock read is a period after the last one began or the handler was entered |
| Guarantees.RestrictionIsEarned | packet_processor/dev/flexio_pp_dev_sch.c:48-73 | in every reachable state between rollovers a restricted resource is used up |
| Guarantees.NothingToReclaim | packet_processor/dev/flexio_pp_dev_sch.c:386-398 | in every reachable state a restricted account settles to exactly its target and reclaims nothing |
| RateLaws.RolloversAreApart | packet_processor/dev/flexio_pp_dev_sch.c:570-587 | any two rollovers of a run begin at least a period apart, across loop iterations and handler re-entries |
| RateLaws.RolloversInWindow | packet_processor/dev/flexio_pp_dev_sch.c:570-587 | between any two moments at most one rollover more completes than periods fit in between |
| RateLaws.WindowRateIsBounded | packet_processor/dev/flexio_pp_dev_sch.c:563-606 | in any window of D clock cycles, cycles collected are at most (D/period + 1) target sums plus the budgets at its start and the debts at its end; cycles charged, that plus what is uncollected |
| RateLaws.ChargesAreBounded | packet_processor/dev/flexio_pp_dev_sch.c:563-587 | exact ledger of the interleaved system, and at most one rollover per period elapsed since initialisation |
| RateLaws.RateIsBounded | packet_processor/dev/flexio_pp_dev_sch.c:546-587 | from initialisation, cycles charged in D clock cycles are at most (D/period + 1) target sums plus debts and uncollected charges |
| RateLaws.TenantRateIsBounded | packet_processor/dev/flexio_pp_dev_sch.c:153-455 | in every interleaving one tenant is charged at most its target, its cap for each elapsed period, what it owes and what is uncollected |
| Guarantees.IsolationHolds | packet_processor/dev/flexio_pp_dev_sch.c:153-424 | in every interleaving a tenant has at least what its private token bucket would have |
| Guarantees.SharingNeverHurts | packet_processor/dev/flexio_pp_dev_sch.c:153-454 | two interleaved systems, one sharing and one in mode OFF, that collect the same of a tenant: sharing leaves it no less budget and no more debt |
| Limits.AccountsAreBounded | packet_processor/dev/flexio_pp_dev_sch.c:153-455 | at every step of every interleaving, also within a rollover, budgets are within caps and the configuration is unchanged |
| Limits.NothingOutgrows | packet_processor/dev/flexio_pp_dev_sch.c:172-179 | a limit on the sum of the initial caps bounds every budget, every pool and the restricted target sum at every step |
| Guarantees.AtMostOneMorePacket | packet_processor/dev/flexio_pp_dev_tnt3.c:46-60 | while a tenant is restricted each worker charges each resource at most once more |
| Guarantees.OvershootIsBounded | packet_processor/dev/flexio_pp_dev_tnt3.c:46-60 | while a tenant is restricted all workers together charge at most one packet's price each, of cycles and of bytes |
| Handshake.StepKeepsInv | packet_processor/dev/flexio_pp_dev_sch.c:33-44 | every prompt step of scheduler or worker keeps the handshake invariant |
| Handshake.OneWakeupPerSleep | packet_processor/dev/flexio_pp_dev_tnt3.c:110-116 | each sleep gets one wakeup and one start, no sleeper is forgotten, the first-run wait never sees OFF |
| Handshake.SleeperIsWoken | packet_processor/dev/flexio_pp_dev_sch.c:39-41 | after two scheduler steps, whatever else happens, a registered sleeper has been started or starts with its next step |
| Handshake.UnregisteredIsLeftAlone | packet_processor/dev/flexio_pp_dev_sch.c:39 | without a known queue number nothing is sent and nothing changes |
| Handshake.WaiterIsReleased | packet_processor/dev/flexio_pp_dev_utils.c:305-310 | one more scheduler pass releases a first-run worker, also when FREE overwrote HANG, and its next step ends the wait |
| Handshake.LostExactlyWhenNotPrompt | packet_processor/dev/flexio_pp_dev_tnt3.c:174-175 | falling asleep loses the next wakeup if and only if it happens between wakeup and store |
| Handshake.LostForever | packet_processor/dev/flexio_pp_dev_sch.c:39-44 | a lost worker is never started again, whatever the scheduler does |
| Handshake.WakeupCanBeLost | packet_processor/dev/flexio_pp_dev_sch.c:39-41 | without the assumption such a run exists |
| Ring.FreshRing | packet_processor/host/flexio_pp_host_utils.c:113-115 | a ring with all owner bits 1 holds nothing, and a consumer that expects 1 sees no entry |
| Ring.WrapKeepsSlot | common/dev/com_dev.c:136-137 | the 32-bit index finds the same slot as an unbounded one |
| Ring.WrapKeepsLap | common/dev/com_dev.c:138-140 | the expected owner bit is a bit of the 32-bit index itself |
| Ring.StepIndex | common/dev/com_dev.c:132-140 | increment, mask and toggle keep slot and expected bit right across laps and the 32-bit wrap |
| Ring.OwnerTestIsExact | common/dev/com_dev.c:195 | the owner bit differs if and only if the producer is ahead, up to one full lap |
| CompletionQueues.CompletionQueue.constructor | common/dev/com_dev.c:65-76 | a ring with all owner bits set is the empty queue |
| CompletionQueues.CompletionQueue.Ready | packet_processor/dev/flexio_pp_dev_tnt3.c:138-139 | the owner test holds exactly when the queue is not empty |
| CompletionQueues.CompletionQueue.Current | packet_processor/dev/flexio_pp_dev_utils.h:373-376 | the current slot of a queue that is not empty holds its head |
| CompletionQueues.CompletionQueue.StepCq | common/dev/com_dev.c:132-143 | removes exactly the head of a queue that is not empty and tells the hardware; on an empty queue the index runs ahead of the hardware |
| CompletionQueues.ComCqPoll | common/dev/com_dev.c:189-205 | consumes exactly the requester's completions at the front, reports their number, fails at another kind or on a null argument, and terminates |
| ReceiveCredits.WorkerKeepsInv | packet_processor/dev/flexio_pp_dev_utils.h:373-387 | read, repost and step keep credits and ring in agreement |
| ReceiveCredits.InitialInv | packet_processor/host/flexio_pp_host_utils.c:376 | initially there are as many credits as slots, on an empty ring |
| ReceiveCredits.CreditsAdmit | packet_processor/dev/flexio_pp_dev_utils.h:386 | the hardware completes a receive exactly when one is posted that has no completion yet |
| ReceiveCredits.ServedInOrder | packet_processor/dev/flexio_pp_dev_utils.h:373-376 | packets are served once each, in order, with the fields that were written |
| ReceiveCredits.ArrivedIsServed | packet_processor/dev/flexio_pp_dev_utils.h:373-387 | four worker steps after a poll that finds a packet it is served, its receive posted again and the worker polls, whatever the hardware does |
| ReceiveCredits.PollIsExact | packet_processor/dev/flexio_pp_dev_tnt3.c:46-48 | at every poll producer minus consumer is at most the depth and the owner test is exact |
| ReceiveCredits.OverwrittenOnlyAfterRead | packet_processor/dev/flexio_pp_dev_utils.h:386-387 | a completion slot is overwritten early only after its fields were read |
| ReceiveCredits.RepostOpensTheSlot | packet_processor/dev/flexio_pp_dev_utils.h:386-387 | between repost and step a full ring does let the hardware overwrite it |
| SendRing.EntriesArePreserved | packet_processor/dev/flexio_pp_dev_utils.c:275-292 | for any number of packets entry e keeps the control segment of index e and the send queue number, the ethernet segment, and in its fourth segment what memory held |
| SendRing.RecentPacketsAreInPlace | packet_processor/dev/flexio_pp_dev_utils.h:380-382 | each of the last 128 packets is in the data segment of its entry |
| SendRing.DataSegment | packet_processor/dev/flexio_pp_dev_utils.h:380-381 | the segment index stays 4 times the packet count and finds the entry's data segment through the wrap |
| SendRing.SendQueue.constructor | packet_processor/dev/flexio_pp_dev_utils.c:276-291 | all 128 entries, segment by segment, whatever memory held before |
| SendRing.WalksTheRing | common/dev/com_dev.c:179-182 | the n-th call finds segment n mod 512, lap after lap, and the index is n mod 2^32 |
| SendRing.SendQueue.Send | packet_processor/dev/flexio_pp_dev_utils.h:380-385 | exactly the data segment of entry `sq_pi` mod 128 changes |
| MacSwap.SwapMacs | common/dev/com_dev.c:17-26 | the byte loop exchanges bytes 0-5 and 6-11 and nothing else |
| MacSwap.SwapMacFast | packet_processor/dev/flexio_pp_dev_utils.h:262-271 | the overlapping word accesses do the same as the byte loop |
| MacSwap.SwapsBack | packet_processor/dev/flexio_pp_dev_utils.h:262-271 | swapping twice restores the packet; bytes from 12 on never change |
| MacSwap.BytesOfMixed | packet_processor/dev/flexio_pp_dev_utils.h:269-270 | the mask takes six bytes of one word and two of the other |

## Left out

- Weak memory: fences and acquire/release orders are not modelled; atomics are sequentially consistent.
- The loop over all workers in `sch_check_workers`: the handshake is modelled for one worker at a time, since workers share no status.
- `sch_assign_workers`, workload types, buffers and windows: plain assignments that no property here depends on.
- The contents and reuse of receive buffers, and when the hardware transmits: only completion entries and send segments are modelled.
- The 16-bit doorbell counter of the receive queue: credits are unbounded counts.
- Whether the hardware reports `wqe_counter` in posting order: the model shows that the worker reads what was written.
- Checksum and NVMe workloads, usage reports and the unused MAC helpers: their results feed nothing that is modelled.
- Host setup: only the initial owner bits and the initial receive credit are taken from it.
- `flexio_pp_dev_tnt1.c` and `flexio_pp_dev_tnt2.c`, which are not built.
- Configurations in which the number of tenants differs from the queues a worker serves, or in which a weight sum is zero.
- Guarantees.OvershootIsBounded: bounds what is charged after the flag is stored, because between the scheduler's comparison and its store workers may process any number of packets.
