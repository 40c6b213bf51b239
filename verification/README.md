# Shopee Hunter: verified model

Shopee Hunter collects vouchers from several sources, deduplicates them, plans which of them to combine for a
basket, schedules and makes claim attempts, and notifies through a durable outbox. This project models the parts of
it that carry invariants, in Dafny, and proves those invariants for every input and every run.

`dafny verify dfyconfig.toml` checks the whole project.

| file | component |
|---|---|
| `Domain.dfy`, `Orders.dfy` | shared values (money, instants, vouchers, text folding), orders, stable sorting, picking from sequences |
| `Planning.dfy` | basket validation and the value of one voucher |
| `Optimize.dfy` | the combination search itself: masks, stacking policy, totals, ranking, the plan |
| `OptimizeProperties.dfy`, `PlanOrder.dfy` | optimality, irredundancy, truncation loss, money bounds, independence of input order |
| `Alternatives.dfy` | what the losing combinations are told, when combinations tie, what input order then decides |
| `Outbox.dfy`, `OutboxRuns.dfy` | the outbox table, the drain worker, and the transition system of enqueues, drains and crashes |
| `Ingestion.dfy`, `StoreRuns.dfy`, `Pipeline.dfy` | identity keys, the three-table voucher store, any history of it, and batch ingestion |
| `Claims.dfy` | claim policy, retry, session state, one claim attempt, and runs of attempts |
| `Schedule.dfy` | the durable schedule table, its scheduler, and any interleaving of workers |
| `Polling.dfy`, `Provenance.dfy`, `Discovery.dfy`, `Campaign.dfy` | request budget, source merge, first-discovery attribution, campaign calendar |
| `Quality.dfy`, `Digits.dfy` | the source-quality score, the two renderings of amounts |

What changes state in the program is a class here, with the same fields and statements, and each of its methods is
proved equal to a step function on values (`Settled`, `Ingested`, `Claimed`, `Step`, …). What is promised of whole
runs is then proved about those step functions. A loop over a local vector is a method with a loop, proved against a
specification function or an order-free predicate.

Money is an exact decimal (`real`), an instant is an integer number of seconds, and ids are numbers that the caller
draws fresh. Each database statement or transaction is one atomic step. Hashes are arbitrary functions.

## Where the code differs from what is written about it

- The ranking of combinations is described as a total order. Vouchers of given labels can never make a tie exactly
  when the labels are pairwise distinct (`NeverTiesIff`). Two combinations that save as much, are as large and carry
  the same labels do tie: of two such vouchers the one given first is selected (`InputOrderDecides`).
- An alternative with the same saving is described as using more vouchers. It never uses fewer
  (`AlternativesExplained`), and the description is true of every alternative shown exactly when only one combination
  is optimal (`TextsTrueIff`); two coupons of equal value for one slot show it false (`TwoCoupons`).
- Delivered and dead-lettered rows stay as they are because one worker drains at a time, not because the statements
  check: a late failure mark reopens a delivered row exactly while it has attempts left, and a late delivery mark
  turns a dead letter into a delivered row (`LateMarks`).
- Rescheduling a finished job changes its times but never makes it claimable again (`UpsertNeverReopens`).
- The claim policy does not read the recorded voucher status: a voucher just found exhausted is requested again while
  attempts remain (`RepeatAllowedIff`).
- With a diagnostic budget above the attempt budget, a retry is promised that can never happen
  (`RetriesWithinBudgetIff`).
- Merging observations is not associative (`GroupingMattersIff` says exactly when the grouping matters), so the order
  of merging is part of its meaning.
- An external id is meant to be scoped to its source; items of two sources can share a key exactly when one source's
  name is nested in the other's around a colon (`SharedExternalKeyIff`), and are then stored as one voucher
  (`SourcesMergeIff`).
- Ingesting a batch again is silent exactly when the batch does not list one key with two different hashes
  (`ReingestSilentIff`).
- The quality score never falls below -44, where -55 is documented (`ScoreRange`, `RangeAttained`).
- The request budget bounds every hour under a clock that does not go back (`EveryHourBounded`); under any clock it
  does exactly for limits of at most one (`BoundedUnderAnyClockIff`).
- When campaigns overlap the most demanding profile is said to win. It does, except exactly when the open window of
  the governing campaign forces a less demanding one (`MostDemandingIff`).

## Model

| member | source | states |
|---|---|---|
| Basket.Validate | crates/planning/src/basket.rs:230-259 | silent on exactly the valid baskets: at least one shop, no negative shipping, every shop valid, no two shops with the same folded id |
| Basket.ValidateShop | crates/planning/src/basket.rs:119-153 | leaves earlier issues in place and adds none iff the shop has an id, no negative amount, no zero quantity, and items that add up to its stated subtotal |
| Basket.FindShop | crates/planning/src/basket.rs:200-209 | a found shop is one of the basket's with the wanted folded id; none is found only if no shop has it |
| Basket.PartsWithinTotal | crates/planning/src/basket.rs:188-221 | with non-negative shops, every category subtotal and every shop's subtotal lies between zero and the merchandise subtotal |
| Constraint.RoundHalfEven | crates/planning/src/constraint.rs:175-232 | the result is within a half of the argument, and even when it is exactly a half away |
| Constraint.LabelFor | crates/planning/src/constraint.rs:264-274 | a label is never empty; it is the trimmed code unless that is blank, and otherwise a prefix of the trimmed title, all of it or its first 40 characters |
| Constraint.EstimateWithinBase | crates/planning/src/constraint.rs:175-232 | no rule saves less than nothing or more than the amount it applies to, whatever its cap, percentage or limit |
| Constraint.EstimateMonotone | crates/planning/src/constraint.rs:175-261 | the rule read off a voucher never saves less on a larger amount, through half-even rounding and caps |
| Optimize.PolicyAllows | crates/planning/src/optimize.rs:516-548 | the counters decide exactly whether every stacking slot, each shop being its own slot, and the overall limit are respected |
| Optimize.ComboTotal | crates/planning/src/optimize.rs:554-575 | the accumulators yield the separately clamped merchandise and shipping sums and whether either clamp acted |
| Optimize.RankCombinations | crates/planning/src/optimize.rs:473-514 | the mask loop and sort produce the ranked list that RankedExactly characterises |
| Optimize.EvaluateAll | crates/planning/src/optimize.rs:255-261 | every voucher becomes a candidate or an exclusion with its reason, each list in input order |
| Optimize.OptimizeWith | crates/planning/src/optimize.rs:248-336 | the plan computed is the one the planning theorems below speak about, in every field but the uncertainty list |
| SearchProperties.MaskOf | crates/planning/src/optimize.rs:483-489 | every set of positions is the bit set of some mask the loop reaches |
| SearchProperties.MaskUnique | crates/planning/src/optimize.rs:483-489 | no two masks of the loop stand for the same set of positions |
| SearchProperties.RankedExactly | crates/planning/src/optimize.rs:468-514 | the ranked list is sorted by total, size and labels with ties in mask order, and holds the entry of a mask iff the policy allows its combination |
| SearchProperties.HeadDominates | crates/planning/src/optimize.rs:283-290 | the first entry saves at least as much as any allowed set of candidates, with no more vouchers when it saves the same |
| SearchProperties.AllowedSubset | crates/planning/src/optimize.rs:516-548 | what the policy allows it allows with vouchers taken away |
| PlanProperties.PlanIsWinner | crates/planning/src/optimize.rs:283-301 | the selected list is the first-ranked combination, which the policy allows, and the plan's total and capped flag are that combination's |
| PlanProperties.PlanOptimal | crates/planning/src/optimize.rs:283-301 | no allowed set of searched candidates saves more than the plan, and none that saves as much is smaller |
| PlanProperties.Irredundant | crates/planning/src/optimize.rs:502-548 | every proper subset of the selected vouchers saves strictly less than the plan |
| PlanProperties.EmptyIffNothingToSave | crates/planning/src/optimize.rs:283-301 | for a valid basket nothing is selected iff the best total is zero |
| PlanProperties.OfferWithinBasket | crates/planning/src/optimize.rs:339-434 | an offered estimate is non-negative and, in a valid basket, at most the pool it draws on |
| PlanProperties.CappedExactly | crates/planning/src/optimize.rs:554-575 | the total never exceeds the sum of the selected estimates, and the capped flag holds iff it is strictly below it |
| PlanProperties.SavingWithinOrder | crates/planning/src/optimize.rs:324-335 | in a valid basket the saving lies between zero and the order total, and the total after is exactly the difference: the final clamp never acts |
| PlanProperties.DroppedWorthLess | crates/planning/src/optimize.rs:263-281 | every candidate left out of the search is worth no more than every candidate in it |
| PlanProperties.TruncationLoss | crates/planning/src/optimize.rs:263-281 | any allowed combination of all candidates saves at most the plan's total plus, for each unsearched voucher it uses, the largest unsearched estimate |
| OrderProperties.OrderIrrelevant | crates/planning/src/optimize.rs:263-281 | with distinct labels, permuting the input leaves the ranked list, the selection up to input positions, all totals and the alternatives unchanged, truncation or not |
| OrderProperties.BestTotalOrderFree | crates/planning/src/optimize.rs:263-281 | without truncation the best total does not depend on input order, even when labels repeat |
| ExplanationProperties.AlternativesExplained | crates/planning/src/optimize.rs:577-606 | every alternative shown is an allowed combination other than the winner with its true total, the stated shortfall is exact, and one that saves as much uses no fewer vouchers |
| ExplanationProperties.TextsTrueIff | crates/planning/src/optimize.rs:577-606 | every alternative said to use more vouchers than the plan does so iff exactly one permitted combination is optimal, that is, saves most with fewest vouchers |
| ExplanationProperties.EveryVoucherAccounted | crates/planning/src/optimize.rs:255-281 | every input voucher is either searched or excluded with a reason, exactly once |
| TieProperties.NeverTiesIff | crates/planning/src/optimize.rs:468-508 | vouchers with given labels make no tie in any plan's ranking, whatever their terms, the basket and the policy, iff the labels are pairwise distinct |
| TieProperties.InputOrderDecides | crates/planning/src/optimize.rs:502-508 | of two vouchers with one label, equal positive value and one slot between them, the plan selects the one given first, so swapping them selects the other |
| TieProperties.SameSizeIsCalledMore | crates/planning/src/optimize.rs:594-598 | for any two vouchers of equal value and one slot between them the plan shows an alternative said to use more vouchers that does not |
| TieProperties.TwoCoupons | crates/planning/src/optimize.rs:594-598 | two plain platform coupons and a valid order are such a case |
| Outbox.OutboxRepository.constructor | crates/storage/src/repositories/outbox.rs:45-47 | a new store has no rows |
| Outbox.OutboxRepository.Enqueue | crates/storage/src/repositories/outbox.rs:51-79 | a row is created iff the idempotency key has none, and nothing else changes |
| Outbox.OutboxRepository.FetchReady | crates/storage/src/repositories/outbox.rs:81-96 | the batch is the oldest due pending rows, each once, oldest first, and falls short of the limit only when no due row is left out |
| Outbox.OutboxRepository.MarkDelivered | crates/storage/src/repositories/outbox.rs:98-108 | that row alone becomes delivered, whatever it was |
| Outbox.OutboxRepository.MarkFailed | crates/storage/src/repositories/outbox.rs:110-133 | every other row is untouched; that row keeps its key and creation time, gains one attempt, the error and the next time, and is dead-lettered iff its attempts now reach the maximum, else pending |
| DrainProperties.CountsPartition | crates/storage/src/repositories/outbox.rs:135-142 | the three counts by status add up to all rows |
| Outbox.OutboxNotifierWorker.DrainOnce | crates/notifier/src/outbox.rs:145-244 | a drain settles the fetched rows in order by their answers, or all before the row whose outcome could not be written, and reports counters only when complete |
| Outbox.OutboxNotifierWorker.Settle | crates/notifier/src/outbox.rs:170-235 | one answer changes the row as the statement does and one counter by the worker's own dead-letter test |
| DrainProperties.BatchIsCurrent | crates/storage/src/repositories/outbox.rs:81-96 | fetched rows are distinct, pending, and as the store holds them |
| DrainProperties.DrainAccounts | crates/notifier/src/outbox.rs:149-243 | delivered, retried and dead-lettered add up to the rows fetched and equal the change of the store's own counts per status, and the attempts left over all pending rows fall by at least as many |
| DrainProperties.FinitelyManyBusyDrains | crates/notifier/src/outbox.rs:145-244 | without new events, any sequence of drains sends no more messages, in no more busy drains, than there are attempts left |
| DrainProperties.EventuallySettled | crates/notifier/src/outbox.rs:145-244 | without new events, as many completed drains as there are attempts left, the first not before the pending rows are due and each at least the longest delay after the one before, leave no row pending, whatever the notifier answers |
| DrainProperties.BackoffMonotone | crates/notifier/src/outbox.rs:312-324 | the delay never shrinks with more attempts and never passes the ceiling |
| OutboxRuns.RunKeeps | crates/notifier/src/outbox.rs:145-244 | every run keeps the invariant that status and attempt count of each row are exactly explained by what was sent, refused and lost in crashes |
| OutboxRuns.DeliverySafety | crates/storage/src/repositories/outbox.rs:51-133 | after any run from an empty outbox: one row per enqueued key and none lost, pending rows have attempts left, successful sends of a key are at most one plus the crashes right after one, and a dead letter was refused at least the maximum number of times |
| OutboxRuns.TerminalRowsStay | crates/storage/src/repositories/outbox.rs:98-133 | in any run with one worker a row never changes key and never changes at all once delivered or dead-lettered |
| OutboxRuns.DrainIsRun | crates/notifier/src/outbox.rs:145-244 | the worker's loop is the run that starts a drain and sends the rows in hand one by one |
| OutboxRuns.FailedDrainIsRun | crates/notifier/src/outbox.rs:145-244 | a drain stopped by a store error after a send is the run that crashes there |
| OutboxRuns.LateMarks | crates/storage/src/repositories/outbox.rs:98-133 | after any run, a late delivery mark changes the status of exactly the dead letters, a late failure mark that of exactly the delivered rows, reopening those with attempts left |
| Identity.KeyTellsBasis | crates/domain/src/identity.rs:70-124 | equal keys come from the same kind of identity |
| Identity.ExternalKeyInjective | crates/domain/src/identity.rs:70-82 | within one source, equal external keys mean equal trimmed external ids |
| Identity.SharedExternalKeyIff | crates/domain/src/identity.rs:70-82 | accepted items of two different sources can share an external key iff one source's name is the other's followed by a colon and then nothing or something that does not start with a space |
| VoucherStore.VoucherRepository.constructor | crates/storage/src/repositories/voucher.rs:44-46 | a new store is empty |
| VoucherStore.VoucherRepository.UpsertCandidate | crates/storage/src/repositories/voucher.rs:51-121 | the whole new state of all three tables and the outcome, keeping one voucher per key |
| VoucherStore.VoucherRepository.InsertOnConflictNothing | crates/storage/src/repositories/voucher.rs:167-214 | the row is inserted iff its key is new, and the id read back is the fresh one iff it was |
| VoucherStore.VoucherRepository.CompareFields | crates/storage/src/repositories/voucher.rs:284-320 | a field is named iff it is watched and differs, and the catch-all is named iff no watched field differs; never nothing |
| VoucherStore.VoucherRepository.SetStatus | crates/storage/src/repositories/voucher.rs:155-164 | that voucher's status alone changes, whatever it was |
| StoreRuns.StoreIsHistory | crates/storage/src/repositories/voucher.rs:51-121 | after any history there is exactly one voucher per key ever ingested; its hash is that of its own columns and of the key's latest candidate; its versions are exactly the hashes ever ingested for it, once each; the observations are exactly the triples ever seen, once each |
| StoreRuns.IdNeverChanges | crates/storage/src/repositories/voucher.rs:167-259 | a voucher keeps its id, key, source and first sighting through every later history |
| Pipeline.IngestCandidates | crates/collectors/src/pipeline.rs:28-77 | the loop leaves the store, the counters and the events that the theorems below speak about |
| Pipeline.IngestOne | crates/collectors/src/pipeline.rs:45-74 | one accepted candidate changes the store by one upsert and exactly one counter |
| Pipeline.BatchAccounts | crates/collectors/src/pipeline.rs:28-77 | new, updated, unchanged and rejected add up to the batch, and the events are those of the created and updated candidates, in order |
| Pipeline.CreatedAreNewKeys | crates/collectors/src/pipeline.rs:45-60 | a batch creates exactly as many vouchers as its accepted candidates have distinct keys the store did not know |
| Pipeline.KnownAfter | crates/storage/src/repositories/voucher.rs:67-78 | after a batch the known keys are those known before and those of its accepted candidates |
| Pipeline.TwoCandidates | crates/storage/src/repositories/voucher.rs:51-121 | two accepted candidates ingested into an empty store create one voucher iff they share a key |
| Pipeline.SourcesMergeIff | crates/domain/src/identity.rs:70-82 | for two different sources some accepted items with external ids are stored as one voucher iff one source's name is nested in the other's |
| Pipeline.SilentIff | crates/collectors/src/pipeline.rs:28-77 | a pass over a batch announces nothing iff the store already held every accepted candidate's hash, and then no stored hash changes |
| Pipeline.ReingestSilentIff | crates/collectors/src/pipeline.rs:28-77 | ingesting a batch again announces nothing iff its accepted candidates of one key all carry one hash; distinct keys are the special case |
| ClaimRules.AllowedIff | crates/claimer/src/policy.rs:32-116 | a claim is allowed iff every one of the ordered rules is satisfied, stated without their order |
| ClaimRules.RetryBounded | crates/claimer/src/retry.rs:25-67 | a terminal result is never retried, no wait exceeds a minute, and a rate limit waits at least its floor |
| ClaimRules.RetriesWithinBudgetIff | crates/claimer/src/retry.rs:25-67 | retries are promised only while an attempt is left iff the diagnostic budget does not exceed the attempt budget |
| ClaimRules.SessionManager.Observe | crates/session/src/manager.rs:98-146 | an event is produced iff the state changes, the last healthy time moves iff the new state is healthy, and the gate agrees with the state |
| ClaimService.ClaimRepository.BeginAttempt | crates/storage/src/repositories/claim.rs:37-60 | appends one open attempt |
| ClaimService.ClaimRepository.CompleteAttempt | crates/storage/src/repositories/claim.rs:62-88 | records the result of that attempt alone |
| ClaimService.ClaimRepository.HasSuccessfulAttempt | crates/storage/src/repositories/claim.rs:90-99 | true iff some attempt of the voucher was a success or already saved |
| ClaimService.ClaimRepository.CountAttempts | crates/storage/src/repositories/claim.rs:101-113 | the number of attempts of the voucher, finished or not |
| ClaimService.ClaimWorker.AttemptClaim | crates/claimer/src/service.rs:99-213 | the whole new state (log, session, voucher status) and the outcome of one call, with session changes before the gate and during the request |
| ClaimRuns.CallExtends | crates/claimer/src/service.rs:111-157 | a call adds at most one attempt, numbered by those before it, and only with budget left, no earlier success and a healthy session at both checks |
| ClaimRuns.AttemptsBounded | crates/claimer/src/service.rs:111-202 | over any run each voucher is requested at most the maximum number of times, its attempts are numbered 0, 1, 2, … and none follows a success |
| ClaimRuns.PauseHolds | crates/claimer/src/service.rs:138-195 | after a call that answered to pause for the session, nothing is sent until a healthy session is observed |
| ClaimRuns.RetryHasBudget | crates/claimer/src/service.rs:178-202 | with the diagnostic budget within the attempt budget, a promised retry has an attempt left and waits at most a minute |
| ClaimRuns.RepeatAllowedIff | crates/claimer/src/policy.rs:32-116 | asked again right after an attempt, the policy allows the request iff the attempt neither succeeded nor paused the session nor spent the budget, whatever status was recorded |
| Schedule.ScheduleRepository.Upsert | crates/storage/src/repositories/schedule.rs:39-77 | one job per voucher and action is kept, and the id returned is the old one when there was one |
| Schedule.ScheduleRepository.TryClaimRunning | crates/storage/src/repositories/schedule.rs:125-141 | wins iff the job was pending or ready, and then counts the attempt |
| Schedule.ScheduleRepository.SetStatus | crates/storage/src/repositories/schedule.rs:104-123 | that job's status and result alone change, whatever they were |
| Schedule.ScheduleRepository.MarkStaleBefore | crates/storage/src/repositories/schedule.rs:143-157 | afterwards every claimable job is unchanged and not before the cutoff, a changed job was claimable, overdue and is now stale at its old time, and the number returned is that of the jobs no longer claimable |
| Schedule.ScheduleRepository.OpenJobs | crates/storage/src/repositories/schedule.rs:79-88 | lists every pending, ready and running job once and no other, earliest execution first |
| Schedule.ScheduleRepository.DueForPreflight | crates/storage/src/repositories/schedule.rs:90-102 | lists every pending job whose preflight time has come once and no other, earliest execution first |
| Schedule.Scheduler.ScheduleJob | crates/scheduler/src/scheduler.rs:56-71 | the job runs at the wanted time and preflights no later |
| Schedule.Scheduler.Reconstruct | crates/scheduler/src/scheduler.rs:73-84 | right afterwards no claimable job is older than the cutoff, and the report counts the open jobs and those that stopped being claimable |
| Schedule.Scheduler.DueJobs | crates/scheduler/src/scheduler.rs:86-93 | the pending jobs whose preflight time has come, each once, earliest execution first |
| Schedule.Scheduler.ClaimJob | crates/scheduler/src/scheduler.rs:97-101 | the worker wins iff the job was claimable at that moment |
| ScheduleRuns.JobsKeepIdentity | crates/storage/src/repositories/schedule.rs:39-157 | under any interleaving a voucher and action have one job, which keeps its id through every upsert |
| ScheduleRuns.AttemptsAreWins | crates/storage/src/repositories/schedule.rs:125-141 | a job's attempt count is the number of workers that won it |
| ScheduleRuns.NeverReopened | crates/storage/src/repositories/schedule.rs:39-157 | a job that is running or finished never becomes claimable except by a status write |
| ScheduleRuns.WinsAreSeparated | crates/storage/src/repositories/schedule.rs:104-141 | between two wins of one job lies a status write back to pending or ready |
| ScheduleRuns.UpsertNeverReopens | crates/storage/src/repositories/schedule.rs:53-56 | rescheduling changes a job's times and leaves it claimable iff it was |
| Polling.RequestBudget.TryConsume | crates/collectors/src/polling.rs:115-125 | prunes what left the window, and grants and remembers the call iff fewer than the limit remain |
| Polling.RememberedExactly | crates/collectors/src/polling.rs:104-125 | the pruned vector is exactly the grants of the hour that ends at the last call |
| Polling.RefusedIff | crates/collectors/src/polling.rs:115-125 | a call is refused iff the hour that ends at it already holds the limit |
| Polling.EveryHourBounded | crates/collectors/src/polling.rs:104-125 | no window of 3600 consecutive seconds, wherever it starts, holds more grants than the limit |
| Polling.BoundedUnderAnyClockIff | crates/collectors/src/polling.rs:104-125 | under any sequence of call times, also ones that go back, every hour is within the limit iff the limit is at most one |
| Polling.BackInTimeExceeds | crates/collectors/src/polling.rs:115-125 | for every limit of two or more: that many calls at one time, one an hour later and one back at the first time put one grant too many into an hour |
| Polling.IntervalBounded | crates/collectors/src/polling.rs:52-77 | more failures never shorten the wait, which stays within the ceiling and, where there is room, above the normal interval |
| Provenance.OriginMostTrusted | crates/collectors/src/provenance.rs:86-145 | after merging any list the origin and voucher type are those of the first of the most trusted observations |
| Provenance.FieldClosedForm | crates/collectors/src/provenance.rs:63-145 | a merged optional field is absent iff nobody carries it, else the first carrier's, unless later carriers are each more trusted than everything before them: then the last such carrier's |
| Provenance.ChosenUnique | crates/collectors/src/provenance.rs:63-84 | the closed form names one observation only |
| Provenance.AllFieldsMerged | crates/collectors/src/provenance.rs:95-134 | all fifteen optional fields follow that closed form |
| Provenance.TitleClosedForm | crates/collectors/src/provenance.rs:86-145 | the title is the first observation's unless a later record-breaker has a non-blank one: then the last such |
| Provenance.FreshestKept | crates/collectors/src/provenance.rs:86-145 | the observation time is the latest in the list, payload and parser are the last observation's |
| Provenance.MergeIdempotent | crates/collectors/src/provenance.rs:86-145 | merging an observation with itself changes nothing |
| Provenance.GroupingMattersIff | crates/collectors/src/provenance.rs:91-108 | the grouping of three observations matters for a field iff one lacks it, the other two disagree, and the trust of the one lacking it tips the balance |
| Discovery.FindWinner | crates/analytics/src/discovery.rs:65-116 | the winner saw the voucher first, ties going to the smaller name, and the runner-up time is the earliest of any other source |
| Discovery.GroupByVoucher | crates/analytics/src/discovery.rs:65-82 | the nested map holds exactly the earliest sighting of every voucher by every source |
| Discovery.AwardWins | crates/analytics/src/discovery.rs:83-116 | each source's row is the sum, over the vouchers it won, of one win and its lead where contested |
| Discovery.SummarizeDiscovery | crates/analytics/src/discovery.rs:65-116 | a row for every observed source and for no other, each the sum of that source's shares |
| Discovery.OrderAndRepetitionIrrelevant | crates/analytics/src/discovery.rs:65-116 | permuting or duplicating observations does not change the summary |
| Discovery.WinsSumToVouchers | crates/analytics/src/discovery.rs:65-116 | the wins of all sources add up to the number of distinct vouchers |
| Discovery.LeadsSound | crates/analytics/src/discovery.rs:41-51 | exactly the observed sources have a row, in which leads are never negative, only contested wins are sampled, and the average is the truncated mean |
| Campaign.Validate | crates/campaign/src/calendar.rs:387-423 | silent on exactly the valid calendars: every campaign valid, ids distinct, every posture bounded |
| Campaign.ValidateCampaign | crates/campaign/src/calendar.rs:247-316 | leaves earlier issues in place and adds none iff the campaign is valid |
| Campaign.FirstOpen | crates/campaign/src/calendar.rs:225-232 | the window found is the first declared one that contains the instant, and none is found iff none does |
| Campaign.FindGoverning | crates/campaign/src/resolve.rs:120-140 | the sorted candidate list yields the campaign that GoverningIsBest characterises |
| CampaignProperties.PhasesConsecutive | crates/campaign/src/calendar.rs:189-219 | warm-up, active and recovery of a valid campaign follow one another without gap or overlap and cover exactly its whole time |
| CampaignProperties.WindowOnlyWhileActive | crates/campaign/src/calendar.rs:225-316 | a high-interest window of a valid campaign is open only while the campaign is active |
| CampaignProperties.GoverningIsBest | crates/campaign/src/resolve.rs:120-140 | the governing campaign has an opinion that no other outranks by priority, earlier start, smaller id; there is none only if nobody has an opinion |
| CampaignProperties.MostDemandingIff | crates/campaign/src/resolve.rs:44-84 | no campaign is in a more demanding phase than the resolved profile iff no open window of the governing campaign forces a less demanding profile |
| CampaignProperties.QuietHourLowers | crates/campaign/src/resolve.rs:61-69 | a valid calendar whose active campaign is polled at the normal profile because its window says so |
| CampaignProperties.ListingOrderIrrelevant | crates/campaign/src/resolve.rs:44-84 | permuting a valid calendar's campaigns changes neither the posture nor any source's posture |
| CampaignProperties.IntervalsBounded | crates/campaign/src/profile.rs:133-143 | under any valid calendar every interval is at least one second, at most the posture's ceiling, and no shorter for a longer base |
| CampaignProperties.SkippedIff | crates/campaign/src/resolve.rs:156-173 | a source is skipped iff the governing campaign switches it off |
| Quality.QualityScore | crates/analytics/src/quality.rs:93-157 | the value is the baseline plus exactly the components shown, which are sorted most punishing first |
| Quality.Penalize | crates/analytics/src/quality.rs:160-168 | adds a component iff the rate is known and costs something, exactly one, negative and with the given reason |
| Quality.SumOfComponents | crates/analytics/src/quality.rs:93-157 | with enough runs the deltas add up to the seven penalties |
| Quality.ShareBounds | crates/analytics/src/ratio.rs:44-53 | a share of a whole is between zero and one, and rounds to one only when the part is everything |
| Quality.PenaltyBounds | crates/analytics/src/ratio.rs:87-95 | a rate costs at most its budget, and its whole budget only at a full rate |
| Quality.ParseAndStaleExclusive | crates/analytics/src/stats.rs:118-144 | parse failures and stale candidates never cost both their whole budgets |
| Quality.ScoreRange | crates/analytics/src/quality.rs:49-57 | plausible counters score between -44 and 100, tighter than the documented -55 |
| Quality.RangeAttained | crates/analytics/src/quality.rs:93-157 | both ends of that range are reached |
| Digits.FormatVnd | crates/ranking/src/score.rs:484-502 | building the text backwards from the right yields the digits with a dot before every third from the right |
| Digits.FmtMoney | crates/notifier/src/format.rs:377-400 | counting from the left yields the same text for every amount |
| Digits.RenderingRoundTrips | crates/ranking/src/score.rs:484-502 | the rendered amount reads back as the amount, so no two amounts look alike |

## Left out

- OptimizeWith: the uncertainty list and the explanatory texts (basis, applies-to) of the plan are not modelled; the reason an alternative loses is a value instead of a sentence.
- ComboTotal: amounts are exact; the 28-digit precision and overflow of the decimal type are not modelled, except that an unrepresentable line total saturates.
- EstimateWithinBase: a decimal zero with a negative sign, which the source treats as negative, does not exist here.
- EstimateMonotone: the uncertainties a rule collects are not modelled.
- Validate: names are compared ignoring the case of ASCII letters; the source lowers all of Unicode for duplicate shops, categories and payment methods.
- Enqueue: the event payload is not modelled, only its idempotency key.
- DrainOnce: rendering, metrics, cancellation and a failing fetch are not modelled; a store error happens only where an outcome is recorded.
- FetchReady: rows created at the same instant come in any order, and so do jobs of one execution time in OpenJobs and DueForPreflight.
- DeliverySafety: several workers draining at once and the pruning of old rows, which reopens a key, are not modelled; the configuration stays the same over a run.
- BackoffMonotone: the duration type's own overflow and the fallback for a delay it cannot convert are not modelled.
- UpsertCandidate: hashing and the canonical rendering of terms are arbitrary functions; the order of equal rows and database errors are not modelled.
- StoreIsHistory: pruning is not modelled.
- IngestCandidates: a database error that stops a batch half-way is not modelled.
- AttemptsBounded: two simultaneous calls for one voucher, which the program does not exclude, and the pruning of old attempts are not modelled.
- AttemptClaim: timings, schedule ids and error texts of an attempt are not modelled; of the executor's errors only those that end the call or count as transient are distinguished; the call's clock is a parameter.
- Observe: the gate is published after the lock is released; only the sequential use of it is modelled.
- IntervalBounded: jitter is taken as zero.
- PhasesConsecutive: offsets are bounded by the validated range and the timestamp library's representable instants.
- IntervalsBounded: an interval is a number of milliseconds.
- FormatVnd: it is given a whole amount; the rounding before it is not modelled.
- FmtMoney: it is given a whole amount; the digits it prints after a comma for a fraction, and the message around it, are not modelled.
- HTTP clients, collectors' network code, the message transport, browser login, the web interface, configuration parsing and the dashboards are not modelled: they are input and output.
- Voucher scoring weights, relevance rules, alert thresholds, the response keyword tables and text redaction are not modelled: each is a table or a single branch.
- The transition table of voucher statuses is not modelled: the status write does not consult it.
