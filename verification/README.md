# A verified model of the backend's protocols

This project models, in Dafny 4.11, the parts of the backend whose correctness spans several functions, several
processes or a whole history, and proves what they promise. Redis, SQL, the message bus and the clock are modelled by
maps, sequences, sorted sets and explicit steps; a run is a sequence of steps in any order the real system allows, and
the main results hold for every run. `dafny verify dfyconfig.toml` checks everything.

| file | what it models |
|---|---|
| `ChannelHub.dfy`, `ChannelDelivery.dfy`, `ChannelGaps.dfy` | publishing a change under the room lock, subscribing, reading the log, draining a bounded queue |
| `CacheCoherence.dfy` | the versioned two-level cache under readers, commits, invalidations and time |
| `KlassSchema.dfy`, `KlassMigration.dfy`, `KlassModel.dfy` | schema edits of a class, storage sources of fields, the index task with failures and rollback |
| `Pagination.dfy` | keyset pagination in both orders and directions, with nulls |
| `Billing.dfy`, `BillingTask.dfy` | aggregation of usage into invoices, group by group and chunk by chunk |
| `ScriptLimiter.dfy` | the counter and the two queues that limit concurrent scripts |
| `TransactionBlocks.dfy` | operations deferred to the end of nested atomic blocks |
| `Subscriptions.dfy` | one admin's subscription date ranges |
| `MetricsLog.dfy`, `MetricsAggregation.dfy`, `MetricsGaps.dfy` | the work log of minutes and hours, the values that are aggregated, and the hours that are never handed out |
| `Backup.dfy` | backing models up to an archive and restoring them |
| `RedisList.dfy` | bounded lists in Redis with ids from a shared sequence |
| `Tokens.dfy` | base-62 numbers with floating-point division, and signed tokens |

Each protocol is stated twice: once as the code runs it (classes and loops where the code updates things in place,
state machines where several processes take turns) and once as a caller would describe it, and lemmas connect the two.

## Where the code falls short of its promise

Each of these is kept as the code has it, shown by runs or inputs, and bounded by a condition that holds if and only if
the promise does.

* Channel delivery is free of gaps in every run if and only if the client has the channel to itself and either starts
  from a known id or takes one change a poll (`ChannelGaps.GapFreeIff`; a client that asks for nothing aside). Long
  polls take one change, web sockets one hundred. Without a known id, a message of an earlier subscription in a live
  queue hides a gap (`ChannelGaps.UncoveredDeliveryCanGap`). With a single other client, which may be dropped before
  its subscription is confirmed, there is a run with a gap for every size and every start
  (`ChannelGaps.OtherClientCanGap`). Inside the code the only step that does harm is that drop: without it other
  clients change nothing (`ChannelGaps.GapFreeIffCovered`).
* The cache is coherent exactly when the longer of the two timeouts, the delay before a value is stored and the delay
  before an entry is checked fit into the life of the version key (`CacheCoherence.CoherentIffWithinMargin`).
* The script limiter can lose a wake-up under every limit, because its increment and the undo of a refused task are
  separate commands (`ScriptLimiter.WakeUpCanBeLost`). Under a common limit, all runs with at most so many pushes keep
  their wake-ups if and only if the limit allows as many at once (`ScriptLimiter.FewPushesAreCoveredIff`). Were the two
  commands one, wake-ups would be safe in every run if and only if every task is given room for one
  (`ScriptLimiter.AtomicRunsAreCoveredIff`); `ScriptLimiter.CoverIsLostExactly` says which step loses one.
* An operation that raises at the end of a block takes the rest of its batch with it, even operations that should always
  run. All that should run do if and only if in no batch one that is followed by another raises
  (`TransactionBlocks.NothingIsLostIff`).
* Changing a paid plan in the hour before a subscription to another plan starts makes two subscriptions overlap, and
  nothing else does (`Subscriptions.SubscribeIsDisjointIff`, `Subscriptions.ConflictCanOverlap`).
* Saves that overlap in time can leave a bounded list longer than its bound (`RedisList.OverlapCanExceedBound`), though
  never without one of its newest members. In every run a list is exact if and only if no more ids were saved to it
  than its bound or the id last added exceeds the bound (`RedisList.ListIsExactIff`), so any excess goes with the next
  larger id.
* An hour that the metrics runner passes over, because one of its minutes is not done, is handed out later if and only
  if no later hour is in the log by then (`MetricsGaps.HandedOutIff`); otherwise it is lost for ever
  (`MetricsGaps.LostForEver`, `MetricsGaps.HourCanBeLost`). A minute whose task has failed loses its hour for good, even
  when only a listener failed after the minute's rows were stored (`MetricsGaps.FailedMinuteLosesHour`,
  `MetricsGaps.FailingListenerFailsMinute`).
* A failed index task leaves indexes that the class does not record: exactly the broken one, if it is still there, and
  the existing ones that the plan had yet to reach (`KlassMigration.FailStraysArePlanned`).
* Base-62 encoding is exact up to 62 * 2^48 + 60 and fails for the next number (`Tokens.FirstFailure`). Below
  62 * 2^59, and so for every number of 64 bits, a number comes back if and only if each division on the way is exact
  (`Tokens.RoundTripIff`); past that, two errors can cancel (`Tokens.ErrorsCanCancel`).
* Change tracking keeps the very list of a class's schema, not a copy, so the rollback of a failed index task, which
  edits that list, is saved without starting another migration; the agreement of indexes relies on it
  (`KlassModel.Klass.CleanupSchema`, apps/core/abstract_models.py:211-228).

## Model

| member | source | states |
|---|---|---|
| `ChannelHub.OperationsKeepHubOk` | apps/async_tasks/handlers.py:73-153 | subscribing, unsubscribing, confirming and delivering all keep every queue within its capacity and an event exactly while there are clients |
| `ChannelHub.DeliverReachesEveryClient` | apps/async_tasks/handlers.py:142-153 | one message reaches every client with room in its queue, drops exactly the clients without, and gives the channel up exactly when nobody is left |
| `ChannelHub.RedisPubSubHandler.SubscribeClient` | apps/async_tasks/handlers.py:73-105 | registers a fresh queue and sends a subscribe command only for the first client of the channel |
| `ChannelHub.RedisPubSubHandler.UnsubscribeClient` | apps/async_tasks/handlers.py:107-122 | removes the client and leaves the channel when it was the last one |
| `ChannelHub.RedisPubSubHandler.HearConfirmation` | apps/async_tasks/handlers.py:134-137 | sets the event of a channel that is still subscribed, and nothing otherwise |
| `ChannelHub.RedisPubSubHandler.HearMessage` | apps/async_tasks/handlers.py:139-153 | the loops over clients have the effect of one delivery: put where there is room, then drop the full ones |
| `ChannelDelivery.AfterResumes` | apps/channels/handlers.py:79-93 | reading the log after the last id received goes on exactly where the previous reading stopped |
| `ChannelDelivery.ReadDatabaseIsPrefix` | apps/channels/handlers.py:50-55 | the log read of a poll is a prefix of what follows the cursor, and all of it unless the limit was reached |
| `ChannelDelivery.StepKeepsInv` | apps/channels/handlers.py:35-93 | every step of publisher, Redis, listener and client keeps the account of what the client is still owed by queue and wire |
| `ChannelDelivery.DeliveryIsGapFree` | apps/channels/handlers.py:35-93 | in every interleaving with other clients, as long as none is overrun before the subscription is confirmed, chained polls deliver a contiguous, strictly increasing run of the log, right after the starting id when there is one |
| `ChannelDelivery.LoneRunsAreOrderly` | apps/async_tasks/handlers.py:73-153 | with no other client, none of the harmful drops can happen |
| `ChannelDelivery.LoneDeliveryIsGapFree` | apps/channels/handlers.py:35-93 | in every interleaving of publishers, listener and one client, chained polls deliver without gap or repeat, given only that the log is not trimmed past the cursor |
| `ChannelDelivery.ProcessQueue` | apps/channels/handlers.py:62-77 | of the ids that arrive in time, the first `left` ones above the last id are given out, in order |
| `ChannelDelivery.ProcessChannelSubscribe` | apps/channels/handlers.py:35-60 | a poll gives out the log read and then the queue, never more than its size, each id once |
| `ChannelGaps.UncoveredDeliveryCanGap` | apps/channels/handlers.py:83-93 | for every start without a usable id and every queue of two or more, a run of a client alone on its channel that skips a change |
| `ChannelGaps.GapFreeIffCovered` | apps/channels/handlers.py:35-93 | with other clients that are never overrun unconfirmed, all runs are free of gaps if and only if the start is known or a poll returns one change |
| `ChannelGaps.OtherClientCanGap` | apps/async_tasks/handlers.py:107-137 | for every size and every covered start, a run with one other client in which a stale confirmation makes a poll skip a change |
| `ChannelGaps.GapFreeIff` | apps/async_tasks/handlers.py:73-153 | what a caller knows decides: all runs are free of gaps if and only if there is no other client and the start is known or a poll returns one change, or nothing is asked for |
| `RedisList.NewestAfterAdding` | apps/redis_storage/models.py:101-126 | the newest k members after an addition depend only on the newest k before it |
| `RedisList.SaveIsExactIff` | apps/redis_storage/models.py:113-121 | one save onto any list with the newest ids, exact or not, leaves it exact unless as many ids as the bound were saved before and this id never triggers a trim, both directions |
| `RedisList.ListIsExactIff` | apps/redis_storage/models.py:101-140 | over every run of overlapping saves, a list is exact if and only if it has no bound, no more ids were saved than it, or the id last added exceeds it |
| `RedisList.NewestAreNeverLost` | apps/redis_storage/models.py:101-140 | however saves overlap, every list has all of its newest ids, as many as its bound |
| `RedisList.SerialListsAreExact` | apps/redis_storage/models.py:101-140 | serial saves leave in each list exactly the min(n, max) largest ids saved to it |
| `RedisList.OverlapCanExceedBound` | apps/redis_storage/fields.py:45-56 | two overlapping saves that leave a list of two under a bound of one |
| `RedisList.NewestListingIsComplete` | apps/redis_storage/models.py:226-253 | listing the newest few, up to the bound, gives the newest ever saved, newest first |
| `RedisList.RedisModel.Save` | apps/redis_storage/models.py:128-140 | takes the next id and makes exactly the step of a save with nothing in between |
| `CacheCoherence.CheckRefusesStale` | apps/core/helpers.py:425-433 | an entry older than an invalidated commit fails the version check as long as it can still be found |
| `CacheCoherence.StepKeepsInv` | apps/core/helpers.py:349-433 | every step of readers, writers and time keeps both stores guarded by the version key |
| `CacheCoherence.GetsAreCoherent` | apps/core/helpers.py:349-369 | in every run a get returns a value at least as new as every commit invalidated before its version check |
| `CacheCoherence.SharedEntryOutlivesVersion` | apps/core/helpers.py:394-405 | beyond the margin, a run in which a stale value comes from the shared store |
| `CacheCoherence.LocalEntryOutlivesVersion` | apps/core/helpers.py:383-389 | with a local timeout beyond the margin, a run in which a stale value comes from a local store |
| `CacheCoherence.CoherentIffWithinMargin` | settings/common.py:206-207 | every run is coherent if and only if timeouts and delays fit into the 300 seconds by which a version key outlives entries |
| `CacheCoherence.Cached.Check` | apps/core/helpers.py:425-433 | refuses exactly a mismatch with a live version key, and remembers that key for the next store |
| `CacheCoherence.Cached.Get` | apps/core/helpers.py:349-369 | local store, shared store, computation and both stores, as the reader of the state machine does alone |
| `KlassSchema.SourceNameInjective` | apps/data/models.py:227-228 | revision and field name can be read off a source |
| `KlassSchema.MappingForEach` | apps/data/models.py:202-231 | the new mapping has exactly the fields of the new schema, each with the source that its former definition calls for |
| `KlassSchema.CleanedFlags` | apps/data/models.py:151-164 | after cleanup exactly the recorded ones among the flagged sources are flagged, for both index types |
| `KlassSchema.FirstMissingIsFirst` | apps/data/models.py:247-276 | the type of index met first in a scan is asked for by the first field that lacks one, order before filter within a field |
| `KlassMigration.SourceForCases` | apps/data/models.py:215-228 | a field keeps its source if and only if type and settings are unchanged; otherwise it gets one of the new revision |
| `KlassMigration.StorageIsNeverReinterpreted` | apps/data/models.py:93-106 | over a whole history the mapping is injective, and one source is never read under two definitions, at whatever two moments |
| `KlassMigration.EditKeepsOrRenewsSources` | apps/data/models.py:202-231 | after any history an edit keeps the sources of unchanged fields and gives all others sources never read before |
| `KlassMigration.MigratedType` | apps/data/models.py:233-276 | the planned additions and drops, with the kept indexes, account for every flagged and every physical index |
| `KlassMigration.FirstTypeHasWork` | apps/data/models.py:247-276 | the type that a plan starts with has operations in it, and additions if either type has any |
| `KlassMigration.SucceedType` | apps/data/tasks.py:47-56 | a finished task leaves recorded, flagged and physical indexes in agreement |
| `KlassMigration.FailType` | apps/data/tasks.py:43-45 | a task that fails at any operation of a plan that starts with either type, with any remains of it, is rolled back to agreement |
| `KlassMigration.FailLeavesExactly` | apps/data/tasks.py:43-45 | after a failed operation the unrecorded indexes are exactly the broken one, if left, and the earlier ones not reached |
| `KlassMigration.FailStraysArePlanned` | apps/data/tasks.py:27-45 | from an exact state, the unrecorded ones are exactly the broken one, if left, and existing indexes that later operations of the plan concern |
| `KlassMigration.UnlockedTwiceType` | apps/core/tasks.py:185-208 | a rollback after a failed save of the unlocked row changes no agreement |
| `KlassMigration.DieType` | apps/data/helpers.py:183-206 | a worker that dies at any operation leaves a locked class from which the index task can start again |
| `KlassMigration.StepKeepsSources` | apps/data/models.py:93-164 | every step keeps the ledger of sources and never changes what a source was given for |
| `KlassMigration.StepKeepsIndexes` | apps/data/models.py:93-164 | every step keeps the agreement of indexes, and every step but a failed operation keeps physical indexes exact |
| `KlassMigration.UnlockedIndexesAgree` | apps/data/models.py:142-164 | over every run, an unlocked class records exactly its flagged indexes, each exists and is valid, and there are no others if no operation failed |
| `KlassModel.ProcessIndexChanges` | apps/data/models.py:233-276 | the scanning loops compute exactly the planned additions, drops and kept indexes of both types, and which type the plan starts with |
| `KlassModel.Klass.ProcessMapping` | apps/data/models.py:202-231 | the loop over the schema computes the mapping of the model |
| `KlassModel.Klass.Migrate` | apps/data/models.py:104-113 | new mapping at once; plan, kept indexes and lock only when indexes change |
| `KlassModel.Klass.constructor` | apps/data/models.py:93-115 | a new class keeps revision 1 and starts with the plan for its flagged indexes |
| `KlassModel.Klass.Edit` | apps/data/models.py:93-115 | refused while locked; no migration for an equal schema; otherwise the next revision |
| `KlassModel.Klass.CleanupSchema` | apps/data/models.py:151-164 | removes in place, from row and tracker alike, the flags without a recorded index, uniqueness with the filter flag |
| `KlassModel.Klass.Unlock` | apps/data/models.py:142-149 | records the created indexes, unlocks, and rolls flags back when asked |
| `KlassModel.Database.ProcessIndex` | apps/data/helpers.py:154-206 | a valid index is left alone, an invalid one rebuilt, a missing one not dropped |
| `KlassModel.Database.ProcessIndexes` | apps/data/tasks.py:27-41 | runs the plan, type by type in its order, up to the operation that breaks and reports exactly the indexes created |
| `KlassModel.RunIndexTask` | apps/core/tasks.py:168-211 | the index task makes exactly the success, failure or failed-save step of the model |
| `Pagination.SortSorts` | apps/core/pagination.py:320-321 | the order is by value with null greatest, then by key, and is a permutation of the rows |
| `Pagination.FlippedSort` | apps/core/pagination.py:378-382 | reversing a query reverses its result, nulls included |
| `Pagination.ConditionSelectsPast` | apps/core/pagination.py:334-376 | the three-valued conditions hold of exactly the rows strictly past the cursor, in both orders and directions, null or not |
| `Pagination.PageIsSlice` | apps/core/pagination.py:59-87 | for every cursor, even to a deleted row, the page is a slice of the sorted rows and its flags tell whether it is full |
| `Pagination.ForwardWalk` | apps/core/pagination.py:393-410 | following next links from the start ends, with the sorted rows cut into full pages and a rest |
| `Pagination.BackwardWalk` | apps/core/pagination.py:412-433 | following previous links from the end gives the sorted rows page by page, last page first |
| `Pagination.NextThenPrev` | apps/core/pagination.py:169-186 | next and then previous shows the same rows; the only other next link restarts, with a page that begins with the short one |
| `Pagination.PrevThenNext` | apps/core/pagination.py:169-186 | previous and then next shows the same rows unless the previous page is the short one at the front |
| `Pagination.Paginator.Serve` | apps/core/pagination.py:59-87 | sets the objects and both flags as the page function says, for page size zero too |
| `Billing.UpsertEffect` | apps/billing/tasks.py:289-321 | updating or creating an item changes every weighted sum by exactly its quantity, and keeps one row for each key |
| `Billing.FreeShareTopsUp` | apps/billing/tasks.py:208-216 | the free part of a group brings the free total to exactly what the larger usage allows |
| `Billing.AggregateKeepsInv` | apps/billing/tasks.py:145-206 | aggregating any group keeps conservation, free totals, invoice amounts, prices and unique open invoices |
| `Billing.UsageIsConserved` | apps/billing/tasks.py:142-206 | in every state booked and pending quantities of each instance add up to what was recorded, and the bill is what the plan makes of the usage |
| `Billing.InvoicesAddUp` | apps/billing/tasks.py:269-287 | each invoice's overage is the sum of price times quantity over its items, and finding an open invoice is unambiguous |
| `Billing.DueWithLimit` | apps/billing/tasks.py:208-216 | with a limit and a price: min(limit, usage) free, the rest paid, charged at the price |
| `Billing.DrainedBillIsDue` | apps/billing/tasks.py:255-267 | once drained, the month's bill is a function of the recorded usage alone |
| `Billing.BillsDoNotDependOnTheRun` | apps/billing/tasks.py:126-206 | two runs over the same transactions give the same bills, whatever the order, grouping, chunks and dispatches |
| `BillingTask.GroupLength` | apps/billing/tasks.py:145-146 | the longest group at the front |
| `BillingTask.GroupsAreWhole` | apps/billing/tasks.py:142-145 | sorting by the group key puts each group in one piece |
| `BillingTask.AggregateTransactions.CreateOrUpdateInvoice` | apps/billing/tasks.py:269-287 | the cached invoice is the one the database would find or create |
| `BillingTask.AggregateTransactions.AggregateGroup` | apps/billing/tasks.py:149-206 | the steps on one group book exactly its quantity |
| `BillingTask.AggregateTransactions.Run` | apps/billing/tasks.py:127-193 | one task is a run of group steps over a whole chunk, and asks for another exactly when transactions are left |
| `BillingTask.AggregateTransactions.Drain` | apps/billing/tasks.py:184-189 | with any positive chunk size the chain of tasks ends with nothing pending |
| `ScriptLimiter.StepKeepsSlots` | apps/codeboxes/tasks.py:90-102 | every step keeps the counter equal to the slots held, and the running tasks within any bound of the tasks' limits |
| `ScriptLimiter.StepKeepsKeys` | apps/codeboxes/tasks.py:76-83 | every step keeps each key in as many places as it was pushed times |
| `ScriptLimiter.LimitIsRespected` | apps/codeboxes/tasks.py:65-102 | in every interleaving, with its own limit for each task, no more tasks process a spec than the largest limit, and no key is dropped or duplicated |
| `ScriptLimiter.NoLostWakeUp` | apps/codeboxes/tasks.py:76-96 | with test and undo as one step and limits of at least one, a queued key always has a pending task or a task yet to check |
| `ScriptLimiter.CoverIsLostExactly` | apps/codeboxes/tasks.py:90-93 | a step loses a wake-up if and only if it refuses the last task that could have seen to a queued key |
| `ScriptLimiter.AtomicRunsAreCoveredIff` | apps/codeboxes/tasks.py:90-96 | with test and undo as one step, every run is safe if and only if every task's limit is at least one |
| `ScriptLimiter.WakeUpCanBeLost` | apps/codeboxes/tasks.py:86-93 | for every limit, a reachable state with a queued key, no task, no holder, nothing pending and the counter at zero, after one push more than the limit |
| `ScriptLimiter.FewPushesAreCoveredIff` | apps/codeboxes/tasks.py:65-96 | all runs with at most k pushes under a common limit keep every queued key seen to if and only if k is at most the limit |
| `TransactionBlocks.ExitKeepsFinal` | apps/core/signal_handlers.py:22-35 | passing a list to the enclosing block does not change what will run of it |
| `TransactionBlocks.RunOutermost` | apps/core/signal_handlers.py:17-35 | the stack of lists, run over a whole block, computes what the nested blocks defer and what failed ones run at once, each batch up to the first operation that raises |
| `TransactionBlocks.BlocksRunExactlyWhatTheyShould` | apps/core/signal_handlers.py:22-35 | success operations are set out to run once if and only if all enclosing blocks succeed, error operations if and only if their own fails, others always; of each batch what runs is the part up to its first operation that raises |
| `TransactionBlocks.NothingIsLostIff` | apps/core/signal_handlers.py:26-35 | all that should run do if and only if in no batch an operation followed by another raises |
| `TransactionBlocks.SuccessRunsInRegistrationOrder` | apps/core/signal_handlers.py:26-35 | no success operation runs before the outermost exit, and then in registration order up to the first that raises |
| `TransactionBlocks.BlockLists.AddTransactionBlock` | apps/core/signal_handlers.py:17-19 | pushes an empty list |
| `TransactionBlocks.BlockLists.AddOperation` | apps/core/helpers.py:200-220 | queues on the innermost list, or outside blocks runs, drops or fails by kind, and passes on what the operation raises |
| `TransactionBlocks.BlockLists.ProcessOperationBlock` | apps/core/signal_handlers.py:22-35 | the loop over the popped list, ended early by an operation that raises, makes exactly the exit step |
| `Subscriptions.AtMostOneActive` | apps/billing/querysets.py:17-21 | disjoint ranges have at most one active subscription on any date |
| `Subscriptions.PendingStart` | apps/billing/views.py:341-352 | a pending subscription starts where a new one would if and only if it is outside the hour of grace |
| `Subscriptions.SubscribeAtOnce` | apps/billing/views.py:361-399 | with an unpaid or no current plan, the new plan starts today and the timeline stays orderly |
| `Subscriptions.FollowUpKeepsInv` | apps/billing/views.py:344-360 | with a paid plan, the same plan is extended and another follows from next month, and the timeline stays orderly |
| `Subscriptions.SubscribeNearOther` | apps/billing/views.py:354-399 | changing to another plan in the hour before a pending one always overlaps |
| `Subscriptions.SubscribeIsDisjointIff` | apps/billing/views.py:322-399 | a request keeps ranges disjoint if and only if it does not conflict with a subscription about to start; only a failed payment refuses it |
| `Subscriptions.CancelKeepsInv` | apps/billing/views.py:276-301 | cancelling keeps the timeline orderly and fails only for ended or unpaid subscriptions |
| `Subscriptions.SubscribeCoversFuture` | apps/billing/views.py:341-399 | a granted request leaves exactly one subscription active on every date from today on, and ends with the plan asked for, open-ended |
| `Subscriptions.CancelEndsService` | apps/billing/views.py:288-301 | a cancelled plan is out of service from the first of a month on, or never starts, and until then exactly one subscription is active |
| `Subscriptions.TimelineStaysDisjoint` | apps/billing/signal_handlers.py:26-37 | over every run from a new admin without such conflicts, ranges are disjoint and at most one subscription is active on any date |
| `Subscriptions.ConflictCanOverlap` | apps/billing/views.py:344-393 | a run that ends in overlapping subscriptions |
| `Subscriptions.Timeline.HandleSubscribe` | apps/billing/views.py:322-399 | the handler does what the subscribe function says, and leaves no trace on an error |
| `Subscriptions.Timeline.HandleCancel` | apps/billing/views.py:276-301 | the handler does what the cancel function says |
| `Subscriptions.Timeline.constructor` | apps/billing/signal_handlers.py:26-37 | a new admin's timeline is one range from today, with an end only for a trial |
| `MetricsLog.LatestIsLast` | apps/metrics/models.py:93-112 | the latest entry of a step is the last one, so runners resume right after it |
| `MetricsLog.CoveredMeansAllDone` | apps/metrics/models.py:82-90 | sixty done minutes counted inside an hour are every minute of it |
| `MetricsAggregation.RunKeepsLog` | apps/metrics/abstract_tasks.py:24-37 | a run of either runner extends the tiling, hands out only covered hours and leaves old entries alone |
| `MetricsAggregation.MinutesReachPresent` | apps/metrics/abstract_tasks.py:24-37 | after a run of the minute runner the tiling reaches the last full minute before the delayed present |
| `MetricsAggregation.CoveredHoursAreHandedOut` | apps/metrics/abstract_tasks.py:29-37 | a run of the hour runner hands out every covered hour from where it resumes up to the delayed present |
| `MetricsGaps.HandedOutIff` | apps/metrics/models.py:93-112 | a covered hour up to the delayed present is in the log after a run of the hour runner if and only if it was there or no later hour was |
| `MetricsGaps.LostForEver` | apps/metrics/models.py:93-112 | an hour that is missing while a later one is in the log is never handed out, whatever happens |
| `MetricsGaps.HourCanBeLost` | apps/metrics/abstract_tasks.py:29-37 | a run after which a covered hour is lost |
| `MetricsGaps.FailedMinuteLosesHour` | apps/metrics/abstract_tasks.py:47-69 | whatever happens, the hour of a minute whose task has failed is never handed out |
| `MetricsGaps.FailingListenerFailsMinute` | apps/metrics/signal_handlers.py:21-25 | a failing listener leaves the rows of a completed minute task and a failed entry |
| `MetricsGaps.AllDoneMeansCovered` | apps/metrics/models.py:82-90 | an hour whose minutes are all done is counted as covered |
| `MetricsAggregation.HourIsExact` | apps/metrics/tasks.py:41-56 | the minute rows of an hour in the log add up to all hits of the hour |
| `MetricsAggregation.StepKeepsInv` | apps/metrics/abstract_tasks.py:47-69 | hits, runners and tasks, succeeding or failing, keep buckets, minutes and hours equal to what was counted |
| `MetricsAggregation.LogTilesTime` | apps/metrics/abstract_tasks.py:24-37 | over any run minutes tile time, hours never come twice, and an hour in the log has all its minutes done |
| `MetricsAggregation.HourValuesAreExact` | apps/metrics/tasks.py:41-56 | the value of a done hour is the sum of its minute rows and of everything counted in the hour |
| `MetricsAggregation.MetricsStore.Increment` | apps/metrics/models.py:28-43 | adds to the bucket of the current minute |
| `MetricsAggregation.MetricsStore.RunRunner` | apps/metrics/abstract_tasks.py:24-37 | the loop extends the log exactly as the model's runner |
| `MetricsAggregation.MetricsStore.AggregateMinute` | apps/metrics/tasks.py:16-33 | reads every field of the bucket once and deletes the bucket |
| `MetricsAggregation.MetricsStore.RunMinute` | apps/metrics/abstract_tasks.py:47-69 | a minute task ends in one of the model's outcomes, a failing listener included |
| `MetricsAggregation.MetricsStore.RunHour` | apps/metrics/abstract_tasks.py:47-69 | an hour task ends in one of the model's outcomes, a failing listener included |
| `Backup.FileNameInjective` | apps/backups/storage.py:171-172 | files of different models or numbers have different names |
| `Backup.PageAndRest` | apps/backups/options.py:108-117 | a page and what is above its last id are what was above the cursor |
| `Backup.ReadsBack` | apps/backups/storage.py:177-188 | trying numbers until one is missing reads exactly the files of the model, in order |
| `Backup.AppendRefines` | apps/backups/storage.py:126-129 | appending to the archive storage stands for appending to the plain one, whether or not a file is written |
| `Backup.EndRefines` | apps/backups/storage.py:164-167 | ending a model completes it in the archive |
| `Backup.ReadRefines` | apps/backups/storage.py:98-99 | between models, both storages read back the same rows |
| `Backup.BackupReadsBack` | apps/backups/site.py:97-105 | every model of a backed-up site reads back as its rows with positive ids, and so as all its rows when ids are positive |
| `Backup.DictStorage.Append` | apps/backups/storage.py:79-80 | appends to the current model |
| `Backup.SolutionZipStorage.WriteBatch` | apps/backups/storage.py:169-175 | writes the batch under the next number, and fails exactly when the archive is then over its limit |
| `Backup.SolutionZipStorage.Append` | apps/backups/storage.py:126-129 | batches the row and writes when the batch exceeds its size |
| `Backup.SolutionZipStorage.GetModelStorage` | apps/backups/storage.py:177-188 | the loop over numbered files reads what the model says |
| `Backup.BackupModel` | apps/backups/options.py:100-117 | the keyset loop appends every row with a positive id once, in order, and ends |
| `Backup.BackupSite` | apps/backups/site.py:97-105 | backs every model up in turn, and cannot fail without a size limit |
| `Backup.RestoreBatches` | apps/backups/options.py:178-186 | the saved batches are never empty, at most one row over the batch size, and together the rows in order |
| `Backup.BackupAndRestore` | apps/backups/options.py:154-186 | backup and restore give back each model's rows with positive ids |
| `Tokens.QuotientCases` | apps/core/helpers.py:658 | rounded division by 62, truncated, is right or one too large, and which of the two is decided by an exact condition |
| `Tokens.QuotientDecreases` | apps/core/helpers.py:656-658 | the encoding loop ends for every number |
| `Tokens.BaseEncode` | apps/core/helpers.py:650-660 | the loop produces the digits of the repeated division |
| `Tokens.DecodeAppend` | apps/core/helpers.py:645-647 | the sum over powers reads digits positionally |
| `Tokens.RoundTrip` | apps/core/helpers.py:645-660 | decode undoes encode for every number up to 62 * 2^48 + 60, and so below 2^53 |
| `Tokens.DividesExactlyIff` | apps/core/helpers.py:658 | for every number, the truncated quotient is the true one if and only if the gap below the next integer, or the last place, allows it |
| `Tokens.SurvivorsRoundTrip` | apps/core/helpers.py:645-660 | every number whose divisions are all exact comes back |
| `Tokens.RoundTripIff` | apps/core/helpers.py:645-660 | below 62 * 2^59 a number comes back if and only if each of its divisions is exact |
| `Tokens.ErrorsCanCancel` | apps/core/helpers.py:645-660 | a number past that range that comes back although its first division is wrong |
| `Tokens.FirstFailure` | apps/core/helpers.py:650-660 | 62 * 2^48 + 61 decodes to a number 62 larger |
| `Tokens.MadeTokenVerifies` | apps/core/helpers.py:663-688 | with an id and an expiration whose divisions are exact, a token verifies to its instance until its expiration and to nothing afterwards |
| `Tokens.SmallTokensVerify` | apps/core/helpers.py:663-688 | and so for every id and expiration up to 62 * 2^48 + 60, which is past 2^53 |
| `Tokens.VerifiedTokenIsSigned` | apps/core/helpers.py:671-688 | whatever verifies is signed, unexpired and names the instance it verifies to |

## Left out

- Tokens.RoundTripIff: from 62 * 2^59 on, exact divisions are sufficient but no longer necessary, as `Tokens.ErrorsCanCancel` shows, and no condition short of carrying the divisions out is given; the overflow of floating point beyond 2^1024 is not modelled.
- ChannelDelivery.LoneDeliveryIsGapFree: the log is not trimmed or expired past the cursor, and the room lock's lease holds.
- Billing.UsageIsConserved: the plan of an admin is fixed during the month, and invoices are not dispatched in the middle of an aggregation task, whose cached invoices would write the old status back; rounding of stored decimals is not modelled.
- MetricsAggregation.HourValuesAreExact: a hit is counted at the time its bucket is chosen, and each queued entry's task runs once.
- KlassMigration.UnlockedIndexesAgree: one physical index for each type and source; the additional trigram index of string fields and the effect of changing only the uniqueness of an indexed field are not modelled.
- ScriptLimiter.LimitIsRespected: the expiry of counter, queues and specs is not modelled; which limit a requeued task passes on is left open.
- Pub/sub connection resets, subscription timeouts and retries.
- A publisher that dies between storing and publishing a change.
- The cache path without versions, synchronous invalidation across locations, and the computation of cache keys.
- Field validation of schemas beyond distinct names, clean-up of socket references, deletion of classes.
- Parsing and rendering of cursors, page sizes and ordering parameters, and loss of precision in cursor values.
- Usage alarms, plan fees, invoice dispatch tasks, Stripe charges, discounts and limits notifications.
- TransactionBlocks.NothingIsLostIff: an operation may raise, but one that registers further operations while it runs is not modelled.
- Building script specs, running them in containers, and traces.
- The setting that runs success operations at once inside a block.
- Time zones: dates and hours are those of one clock.
- Day aggregates, notifications about aggregates and clean-up of old aggregates.
- Files in backups, JSON and zip codecs, custom serializers, migrations of restored schemas, partial restores and backup metadata.
- Watch-based updates, time to live and deletion of Redis objects.
- Serializers, renderers, routers, most views, permissions, sockets, hosting, certificates and push notifications.
