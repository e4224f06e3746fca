# Proofs about the adaptive load orchestrator

This project models the stateful core of the orchestrator and proves what it keeps. It
has three parts.

**The fulfillment network.** Dark stores hold FIFO queues and counters; dispatchers push
orders, pickers pop and complete them, and a load monitor drives a decision engine that
merges the orders of a group cart, refuses, or re-routes an order to another store. At
the end of a run a check adds everything up.

- `Orders`, `OrderQueues`, `Stores`, `Reservation`, `CostModel`, `Accounting`, `Pickers` and `Monitor`
  hold the data, its operations as classes, and the functions those methods are proved
  to compute.
- `Policy` holds the two re-route policies as functions on network values; `Engines` holds the two decision
  makers as classes, proved to compute them, and `Outcomes` says in numbers, and without those functions, when each
  outcome occurs and what its event reports.
- `Runs` has runs of whole evaluations mixed with arrivals, pops, marks and completions, and the bisimulation of the two decision makers; `PingPong`
  the potential argument against endless re-routing.
- `Protocol` is the same network as a concurrent program: each push, pop, counter update,
  extraction, reservation and hand-over is a step of its own, and the steps of
  dispatchers, pickers, engine and main program interleave freely. `Ledger`, `Stocks`, `Marks`, `Primaries`
  and `Windows` prove what every interleaving keeps, `Shutdown` and `Progress` treat the stop
  sequence and the final report, and `Fallback` the form of the check that can fail. `Granularity` shows that a
  whole evaluation of `Policy` is a schedule of `Protocol`, `Schedules` that every run of `Runs` is.

**Group carts.** `Carts` has the operations and the store class, `CartRuns` the
interleavings of the atomic addition with the read-then-write removal, finalization and
join, `TornCarts` the exact effect of a write that comes late, and `BillSplits` the bill
(over the sums of `MapSums`).

**Trips.** `Trips` has the atomic join script and the pooled fee.

## What the code does where it differs from what is said about it

- `ARCHITECTURE.md` says that all changes of a group cart are atomic scripts. Only the addition is; the
  other three read and write in separate steps. `TornCarts.AdditionCanBeLost` and
  `TornCarts.FinalizationCanBeOverwritten` say what a late write does,
  `TornCarts.LateWriteIsWholeIff` and `CartRuns.UntornRunsAreAtomic` when it is harmless.
- The unlock event is called single-fire. It fires once per upward crossing of the
  threshold, so a removal arms it again (`CartRuns.UnlocksAreCrossings`,
  `CartRuns.RemovalsArmTheEvent`).
- The breach summary adds one for every open episode, which was counted when it began
  (`Monitor.OpenEpisodesCountTwice`).
- A simulated time of zero or below means "never" to both windows
  (`Windows.CooldownNeedsAPositiveTime`, `Windows.GraceNeedsAPositiveTime`).
- The trip script halves downwards and the Go function halves towards zero
  (`Trips.FeesAgreeIff`). The script's encoder writes an empty list as an empty
  object, which the Go caller cannot decode: the join is stored and the caller gets an
  error (`Trips.UnreadableIff`, `Trips.HostJoinIsUnreadable`).
- Without the two merge counters the accounting check balances only while no consolidated
  order has been completed (`Shutdown.ScanPassesUnlessMergesCompleted`), and runs in which one is are there
  (`Fallback.FallbackCanFail`).
- Two stores with capacities below four can pass an order to and fro forever (`PingPong.EndlessPlayIff`).

## Model

| member | source | states |
|---|---|---|
| OrderQueues.OrderQueue.Push | internal/fulfillment/queue.go:22-29 | appends the order, giving it a status only if it has none |
| Orders.PushedIsQueued | internal/fulfillment/queue.go:25-27 | a push changes nothing about an order but a missing status, which becomes queued |
| OrderQueues.OrderQueue.Pop | internal/fulfillment/queue.go:32-41 | takes the head, or reports an empty queue and changes nothing |
| OrderQueues.OrderQueue.ExtractNonPerishables | internal/fulfillment/queue.go:51-68 | the loop computes `Extract`: both the orders handed out and the queue left behind |
| Orders.ExtractCutsOnce | internal/fulfillment/queue.go:58-64 | extraction splits the queue at one point: before it exactly the perishable orders stay, after it everything does, and the point is the end unless the quota was used up |
| Orders.ExtractPartitions | internal/fulfillment/queue.go:51-68 | extracted and remaining orders are the old queue, id by id, and no merged order's count is lost |
| Orders.ExtractTakesTheFirst | internal/fulfillment/queue.go:58-64 | what is taken is a prefix of the non-perishable orders, the rest of them keep their order, and no perishable order moves |
| OrderQueues.OrderQueue.ConsolidateOrdersByCart | internal/fulfillment/queue.go:71-101 | the loop leaves the queue `Consolidated` and reports (1, matches), or leaves it alone and reports (0, 0) |
| Orders.ConsolidatedByPlace | internal/fulfillment/queue.go:75-100 | place by place: if a cart is named and two of its orders are unmerged, the head is the order at the first such place, flagged and with their number, and behind it the orders at all other places in increasing order; otherwise nothing changes |
| Orders.ConsolidationLedger | internal/fulfillment/queue.go:94-100 | no id is lost or doubled between queue and absorbed orders; the weighted order count is preserved; matches minus one orders leave the line |
| Orders.ConsolidationSettles | internal/fulfillment/queue.go:75-92 | repeated at once, a consolidation finds nothing and changes nothing |
| Stores.LoadIsQuotient | internal/fulfillment/store.go:132-137 | the integer comparisons of a load with a percentage are those of the real quotient for every capacity but zero, and those of an infinity or no number for zero |
| Stores.Store.ComputeLoad | internal/fulfillment/store.go:132-137 | the load counts queued and picked orders against the capacity |
| Stores.Store.DecrPickingAndIncrCompleted | internal/fulfillment/store.go:117-122 | moves one order from picking to completed and touches nothing else |
| Pickers.PickerPool.ServeNext | internal/fulfillment/picker.go:46-86 | an uninterrupted turn completes the head of the queue, or finds nothing to do |
| Pickers.PickerPool.Work | internal/fulfillment/picker.go:46-86 | the loop with its cancellation: as many orders from the head of the line are completed, in order, as there are turns before it finds itself cancelled |
| Pickers.WorkIsARun | internal/fulfillment/picker.go:46-86 | what the loop leaves is what that many pops, each followed by its mark and its completion, leave |
| Pickers.Dispatch | cmd/sim/main.go:866-888 | the loop queues the whole schedule in order and counts each order for the store and for the network |
| Pickers.ArrivalsQueueUp | cmd/sim/main.go:866-888 | a schedule, as a run of arrivals, appends its orders in order and raises the received count by their number |
| Reservation.ReserveIsExact | internal/fulfillment/reservation.go:10-26 | a reservation succeeds iff the key exists with enough stock; then exactly the quantity leaves that key and no stock is negative; otherwise nothing changes; the stock that is left is reported |
| Reservation.UnconfiguredGrants | internal/fulfillment/reservation.go:59-62 | without a client every reservation is granted with 999 reported |
| Reservation.StockReservationStore.ReserveStockAtomic | internal/fulfillment/reservation.go:58-79 | the script's answer and effect, with the unconfigured store always granting |
| CostModel.GateMonotone | internal/fulfillment/costmodel.go:25-51 | with rates that are not negative an open gate stays open when more orders wait or the target is nearer |
| CostModel.RoundIsNearest | internal/fulfillment/costmodel.go:29-41 | rounding gives the one nearest whole number, of two the one further from zero |
| CostModel.DefaultGateBounds | internal/fulfillment/decision_engine.go:170-177 | with the default rates the gate never opens below 120 waiting orders, is open from 165 on within 1.5 km, and both numbers are the best possible |
| Policy.NearestIsBest | internal/fulfillment/decision_engine.go:148-163 | the search finds a target iff one is eligible; it is a nearest eligible store, and the first in the list among equals |
| Engines.FindTarget | internal/fulfillment/decision_engine.go:148-163 | the loop over the list, which may hold a store twice and need not hold the source, computes that choice and its distance |
| Policy.OneOutcomePerEvaluation | internal/fulfillment/decision_engine.go:83-260 | an evaluation raises the counter of the outcome it returns by one and leaves the other four alone |
| Outcomes.OutcomeIff | internal/fulfillment/decision_engine.go:83-241 | the exact condition of every outcome: load over 0.85, two unmerged orders of the active cart, the 30 s windows, the first nearest store below 0.70 within 1.5 km, the rounded cost below the rounded penalty, an order that may move, a unit of stock |
| Outcomes.EventSays | internal/fulfillment/decision_engine.go:117-253 | every field of the event: source and time; cart and number of a nudge; target, distance, cost, penalty and delay of a search, and the order taken up; with a gate, cost below penalty iff it passes |
| Outcomes.EngineRemembers | internal/fulfillment/decision_engine.go:109-115 | only a nudge writes its time and counts its orders, only an executed re-route writes its time |
| Outcomes.StockRemembers | internal/fulfillment/decision_engine.go:205-241 | a quiet evaluation and a rejection change nothing, and only an executed re-route takes a unit, at the target |
| Outcomes.NudgesMergeOneLine | internal/fulfillment/decision_engine.go:108-109 | a nudge merges the cart's orders in the source's line and changes nothing else |
| Outcomes.ReRouterDecidesAlike | internal/fulfillment/eventbus.go:64-198 | the stand-alone re-router decides, reports and counts what an engine with its rates, gate and re-route time does |
| Policy.BatchingFirst | internal/fulfillment/decision_engine.go:97-132 | while two unmerged orders of the active cart wait in an overloaded store, full orchestration merges them instead of re-routing, opens the grace window, and leaves nothing of that cart to merge |
| Policy.FailedReservationRequeues | internal/fulfillment/decision_engine.go:198-228 | a refused reservation changes only the source queue, where the first non-perishable order moves to the tail |
| Policy.ExecutedMovesOneOrder | internal/fulfillment/decision_engine.go:231-241 | an executed re-route moves the first non-perishable order to the tail of the chosen target, counts it at both ends, stamps the source, and changes no third store |
| Engines.HandOver | internal/fulfillment/decision_engine.go:197-239 | extraction, reservation and hand-over on the objects compute `Transferred` on both stores and the stock table |
| Engines.DecisionEngine.EvaluateBreach | internal/fulfillment/decision_engine.go:83-260 | for every list and source, the effect on engine, every store and the stock table, and the event, are those of `Policy.Evaluate` |
| Engines.CostGatedReRouter.EvaluateAndReRoute | internal/fulfillment/eventbus.go:64-198 | the same for the stand-alone re-router and `Policy.EvaluateAndReRoute` |
| Runs.EvaluationsAgree | internal/fulfillment/eventbus.go:64-198 | from matching states one evaluation of each decision maker gives the same event and network and leaves them matching |
| Runs.Bisimulation | internal/fulfillment/eventbus.go:64-198 | over every run of arrivals, pops, marks, completions and evaluations the two decision makers produce the same events, network and summary (distinct store ids; without an active cart in full orchestration) |
| PingPong.TargetStaysBelowTrigger | internal/fulfillment/decision_engine.go:156-162 | no eligible target is lifted over the trigger by the order it receives iff its capacity is at least four |
| PingPong.EvaluationSettles | internal/fulfillment/decision_engine.go:83-260 | with at most one store of capacity one to three, an evaluation never raises the potential, and an executed re-route lowers it by at least 1/28, by 1/14 without such a store, and leaves a target of capacity four or more below 0.85 |
| PingPong.ReRoutesArePaidFor | internal/fulfillment/decision_engine.go:83-260 | over every run, evaluations between a pop and its mark included: the potential at the start plus what arrivals, pops, marks and completions added to it, less what is left, pays for all executed re-routes |
| PingPong.ReRoutesAreBounded | internal/fulfillment/picker.go:54-66 | between two arrivals, however evaluations, pops, marks and completions are mixed, the executed re-routes are at most 14 (28) times the potential and what marking the orders waiting or held at the start can add |
| PingPong.OneStepPicksAddNothing | internal/fulfillment/decision_engine.go:83-260 | where every pop is followed at once by its mark, the potential at the start alone pays for all executed re-routes |
| PingPong.SmallStoresPlayForever | internal/fulfillment/decision_engine.go:86-163 | with two stores of any capacities from one to three in one place, arrival-free runs execute any number of re-routes |
| PingPong.EndlessPlayIff | internal/fulfillment/decision_engine.go:86-163 | for every list of capacities: re-routes between arrivals are bounded in all networks with these capacities iff at most one of them is from one to three |
| Ledger.LedgerAtEveryStep | internal/fulfillment/picker.go:46-86 | in every interleaving the ledger holds, each activePicking is the number of serving pickers and so between zero and PickerCount, merges are at least twice the nudges, and at most one evaluation has no outcome yet |
| Ledger.NetworkEquation | cmd/sim/main.go:881-886 | in every interleaving, created plus just-pushed orders are those completed, queued, in pickers' hands, absorbed, or in the engine's hand |
| Ledger.ExactlyOnePlace | internal/fulfillment/decision_engine.go:198-239 | an order that arrived once is held exactly once: by the engine, or at exactly one store |
| Ledger.StepKeepsLedgers | internal/fulfillment/decision_engine.go:108-241 | every single step of dispatcher, picker, engine or main program keeps the per-store books, the network's totals and every id's place |
| Ledger.MergingKeepsLedgers | internal/fulfillment/decision_engine.go:108-115 | a merge moves orders from the line to the absorbed, with the counters behind by exactly the pending terms |
| Marks.MarksTellTheTruth | internal/fulfillment/picker.go:64-82 | in every interleaving queued orders have a status, served ones are marked as picking and completed ones as completed, every consolidated order stands for at least two, and no order that is perishable itself is ever in the engine's hand |
| Marks.StepKeepsMarks | internal/fulfillment/decision_engine.go:198-239 | every single step keeps those marks |
| Primaries.MergesAreTraced | internal/fulfillment/queue.go:94-100 | in every interleaving each absorbed order has one primary, and the orders with an id stand for exactly what was absorbed into that id |
| Primaries.PrimariesCountTheirOrders | internal/fulfillment/queue.go:94-100 | in every interleaving an order that arrived once, wherever it is, has ConsolidatedCount - 1 equal to the number of orders absorbed into it if it is consolidated, and none were otherwise |
| Primaries.AbsorbedStandForNobody | internal/fulfillment/queue.go:82-100 | nothing is ever absorbed into an order that was absorbed itself |
| Shutdown.FinalCheckPasses | cmd/sim/main.go:958-959 | every run that reaches the report passes the check with nobody picking; per store received + in - out = completed + queued + picking + absorbed; transfers in = transfers out = executed; evaluations = outcomes |
| Shutdown.EverythingArrives | cmd/sim/main.go:860-891 | at the report every scheduled order has arrived, and the network's count is the number scheduled |
| Shutdown.EveryOrderSettles | internal/fulfillment/picker.go:39-86 | at the report an order scheduled once is at exactly one store and there queued, completed or absorbed, in exactly one of these ways |
| Shutdown.ScanPassesUnlessMergesCompleted | internal/fulfillment/accounting.go:28-38 | the queue-scan form of the check balances iff no consolidated order was completed, and iff it sees the same merges as the counters |
| Fallback.FallbackCanFail | internal/fulfillment/accounting.go:28-38 | from every start in which enough orders of one cart open a store's schedule, some run with the engine's own decisions reaches a report that the counters balance and the scan does not |
| Shutdown.RunKeepsPhases | cmd/sim/main.go:899-904 | a stopped store has no live picker, dispatching is over once stopping begins, and the report finds the engine stopped |
| Progress.RunsAreBounded | internal/fulfillment/picker.go:46-86 | every run, whatever the engine decides, is at most as long as the steps left at its start plus those added by started evaluations and by turns of pickers not told to stop |
| Progress.PickerStopsSoon | internal/fulfillment/picker.go:39-58 | in every run each picker takes at most five more steps once its store is told to stop |
| Progress.PickersStopSoon | internal/fulfillment/picker.go:39-58 | and all pickers of the store together at most five times their number |
| Progress.EvaluationsEnd | internal/fulfillment/decision_engine.go:83-260 | in every run and for all its decisions the engine takes at most thirteen steps per evaluation |
| Progress.CanFinish | cmd/sim/main.go:891-904 | from every state of the stop sequence the report can be reached, with the engine's decisions made by any resolver |
| Progress.EveryRunCanFinish | internal/fulfillment/picker.go:39-44 | no run is ever stuck: whatever has happened, and for every resolver of the engine's decisions, it can go on to the report |
| Progress.EveryRunCanFinishOnItsOwn | internal/fulfillment/decision_engine.go:86-229 | the same with the answers the engine computes from the network it reads, for all distances, carts and failing reservation calls |
| Stocks.StockIsConserved | internal/fulfillment/reservation.go:10-79 | in every interleaving stock left, units reserved and units taken by calls whose error came after their script ran make up the initial stock, stock is never negative, and no more re-routes arrive at a store than it had units |
| Windows.WindowsHold | internal/fulfillment/decision_engine.go:92-146 | in every interleaving two executed re-routes from a store are at least 30 s apart, and in full orchestration none is executed, rejected or failed within 30 s after a nudge of the store |
| Windows.ExecutedSpan | internal/fulfillment/decision_engine.go:142-146 | k executed re-routes from one store span at least (k - 1) times 30 s |
| Windows.ZeroTimeStartsNoCooldown | internal/fulfillment/decision_engine.go:143-146 | at any simulated time of zero or below one store executes twice at the same instant |
| Windows.CooldownNeedsAPositiveTime | internal/fulfillment/decision_engine.go:143-146 | after an executed re-route the store is not re-routed from for 30 s, whatever the network, distances and carts are by then, iff the time was positive; and it executes again at the same instant in the same network iff it was not |
| Windows.GraceNeedsAPositiveTime | internal/fulfillment/decision_engine.go:136-146 | after a nudge the store is not re-routed from for 30 s, whatever happens, iff the time was positive or a re-route of it was executed at a positive time before |
| Granularity.EvaluationIsARun | internal/fulfillment/decision_engine.go:83-260 | every evaluation at a positive time that is not in the past is a schedule of the engine's single steps, with the same network, engine and outcome at its end |
| Schedules.EngineRunIsARun | cmd/sim/main.go:866-888 | every run of arrivals, pops, marks, completions and evaluations that schedules, pickers and clock allow is a schedule of single steps, with the same engine, stores and held orders at its end |
| Schedules.StartIsCalm | internal/fulfillment/picker.go:31-37 | a network that is about to start is one such a run can begin in |
| Accounting.VerifyNetworkAccountingInvariant | internal/fulfillment/accounting.go:19-64 | the loops compute the summary and the verdict of `Audit`, in the counter and in the queue-scan form |
| Accounting.AuditReports | internal/fulfillment/accounting.go:20-63 | each store adds its own numbers under their own names, merged orders come from the counters, never below zero, or from the queues, and the check errs iff created is not their sum |
| Accounting.ExcessOrderByOrder | internal/fulfillment/accounting.go:31-35 | a consolidated order adds its count less one, and no other adds anything |
| Accounting.ScanQueue | internal/fulfillment/accounting.go:31-35 | the inner loop adds up what the consolidated orders stand for beyond themselves |
| Monitor.LoadMonitor.Observe | internal/fulfillment/monitor.go:164-185 | a sample updates the store's record with hysteresis between the two thresholds, and asks for an evaluation iff items over capacity exceed the threshold |
| Monitor.SampleComparesTheLoad | internal/fulfillment/monitor.go:164-176 | a sample's two flags are the comparisons of items over capacity with the two thresholds |
| Monitor.MonitorAsksWhenItMatters | internal/fulfillment/monitor.go:164-175 | with the threshold at 0.85 a store that is not sampled as over is one whose evaluation is no action, and the other way round the engine's own load guard lets it pass |
| Monitor.LoadMonitor.Sweep | internal/fulfillment/monitor.go:158-187 | one tick visits the stores in turn, each with what the visits before it left |
| Monitor.VisitEvaluates | internal/fulfillment/monitor.go:172-175 | a store sampled as over is evaluated at once, by itself, and of any other store only the record changes |
| Monitor.PassEvaluates | internal/fulfillment/monitor.go:158-187 | a tick has exactly as many evaluations as stores sampled as over |
| Monitor.RecordRefinesTrace | internal/fulfillment/monitor.go:164-185 | a store is in breach iff its last sample outside the thresholds was above; episodes, ticks, durations and maximum are those of the trace; raw ticks are never fewer than episodes |
| Monitor.DurationsFillTheTime | internal/fulfillment/monitor.go:176-184 | ended episodes plus the open one are exactly the time overloaded, which is at most the time watched |
| Monitor.TicksRefineTraces | internal/fulfillment/monitor.go:149-187 | after any ticks at times that do not go back, with anything happening to the stores in between, every store's record is that of the samples taken of it |
| Monitor.LoadMonitor.GetBreachSummary | internal/fulfillment/monitor.go:97-142 | the totals, average and maximum as reported, an open episode included up to now |
| Monitor.OpenEpisodesCountTwice | internal/fulfillment/monitor.go:108-127 | the reported number of episodes is the true one plus the number of open ones, so it is right iff no store is overloaded |
| Monitor.SummaryAddsUpTheTime | internal/fulfillment/monitor.go:108-128 | reported at the last samples, durations are the time overloaded, open episodes included, and raw ticks are the ticks above |
| Monitor.LongestIsTheLongest | internal/fulfillment/monitor.go:117-126 | a store's longest episode is the longest of those that ended and the open one |
| Monitor.UnitsAreSeconds | internal/fulfillment/monitor.go:130-134 | the reported times are seconds, the average that per episode |
| Carts.RedisCartStore.AddItemAtomic | internal/groupcart/redis_store.go:189-227 | the script's effect on the shelf, its answer, its unlock flag and its two errors |
| Carts.RedisCartStore.RemoveItemAtomic | internal/groupcart/redis_store.go:290-332 | a removal takes out the first item that answers to the id, name or stock code, with its price, and re-locks the cart below its threshold |
| Carts.RedisCartStore.FinalizeCart | internal/groupcart/redis_store.go:349-364 | a cart in any status becomes finalized; a missing one is an error |
| Carts.RedisCartStore.CreateOrGetActiveCart | internal/groupcart/redis_store.go:60-171 | the call's effect on the shelf and its answer are those of `Atomic` on a join |
| Carts.FoundingIsRecorded | internal/groupcart/redis_store.go:112-170 | where a geofence has no active cart, the new one is its active cart from then on, open, with the host, the seeds of the demo and nothing else, unlocked iff at its threshold; other geofences keep theirs |
| Carts.JoinGoesToTheRecord | internal/groupcart/redis_store.go:61-109 | where it has one, the join goes to that cart, keeps its id, members and items, adds the host once, and files no other cart |
| Carts.JoinersShareTheCart | internal/groupcart/redis_store.go:61-109 | everybody who joins a geofence with an active cart, one after the other, is a member of that one cart |
| Carts.FinalizedCartsAreLeft | internal/groupcart/redis_store.go:65-112 | once its cart is finalized, the next join of a geofence founds a new cart |
| Carts.CurrentIff | internal/groupcart/redis_store.go:61-65 | a geofence's cart is the one its record names, if that is there and active |
| Carts.CallsTouchOneCart | internal/groupcart/redis_store.go:193-201 | additions and removals need an active cart and change only it; a finalization takes any cart and changes only its status; errors change nothing |
| Carts.AddPutsItLast | internal/groupcart/redis_store.go:203-213 | an addition puts the item last and its price on the total, unlocks at the threshold and touches nothing else |
| Carts.AddKeepsHonest | internal/groupcart/redis_store.go:203-213 | an item whose price is not negative keeps total = item sum and unlocked iff the threshold is reached |
| Carts.RemoveKeepsHonest | internal/groupcart/redis_store.go:300-321 | a removal keeps both, takes exactly the first match's price, and its clamp at zero never acts |
| Carts.RemoveTakesTheFirst | internal/groupcart/redis_store.go:300-321 | a removal takes out the first item with that id, or that name or stock code if one is given, and closes the gap; without one no item changes; of the rest only total and discount do |
| Carts.JoinIsIdempotent | internal/groupcart/redis_store.go:66-107 | a join makes the host a member once, keeps what was there, and repeated changes nothing |
| Carts.DemoJoinKeepsExactIff | internal/groupcart/redis_store.go:76-105 | the demo join withholds an earned discount iff the cart was locked and the seeds bring it to its threshold |
| Carts.AddKeepsDiscountIff | internal/groupcart/redis_store.go:207-213 | with any price, an addition keeps unlocked carts at their threshold iff it does not bring an unlocked cart below it |
| Carts.RemoveKeepsTotalIff | internal/groupcart/redis_store.go:313-317 | with any prices, a removal keeps total = item sum iff the rest does not cost less than nothing |
| Carts.NegativePricesBreakCarts | internal/groupcart/redis_store.go:203-213 | a refund entered as an item breaks both promises |
| CartRuns.EveryStoredCartIsHonest | internal/groupcart/redis_store.go:60-364 | in every interleaving, torn or not, every cart ever stored has total = item sum and is unlocked only at its threshold (no negative prices) |
| CartRuns.AdditionsLoseNothing | internal/groupcart/redis_store.go:189-227 | while a cart is only added to, its items are those it had followed by every added item in step order, and its total follows |
| CartRuns.EveryCartSinceTheStartIsHonest | internal/groupcart/redis_store.go:60-364 | the same for every run that begins with an empty store |
| TornCarts.LateWrite | internal/groupcart/redis_store.go:290-364 | whatever happened since its read, a removal, finalization or join leaves exactly its change of what it read and touches no other cart |
| TornCarts.AdditionCanBeLost | internal/groupcart/redis_store.go:60-364 | for every caller that reads first and every run that only adds to the cart in between: all additions are in the cart until the write, which leaves the change of what was read, so no added item is left that was not read, the demo join's seeds aside |
| TornCarts.LateWriteIsWholeIff | internal/groupcart/redis_store.go:60-364 | such a write leaves what the whole call would leave at that moment iff nothing was added since, or a removal found nothing and the one addition is what it would now remove, or the demo join's own seeds were added |
| TornCarts.FinalizationCanBeOverwritten | internal/groupcart/redis_store.go:60-364 | in every run, a finalization between a caller's read and its write is kept by that write iff the caller finalizes too; a removal or join makes the cart active again |
| TornCarts.RemovalLosesAnAddition | internal/groupcart/redis_store.go:290-332 | from every state with the cart active, three steps of a removal and an addition lose the addition |
| TornCarts.JoinLosesAnAddition | internal/groupcart/redis_store.go:60-108 | from every state with an active cart of the geofence, four steps of a join and an addition lose the addition |
| TornCarts.RemovalUndoesAFinalization | internal/groupcart/redis_store.go:290-364 | from every state with the cart active, a removal makes a finalized cart active again |
| CartRuns.UntornRunsAreAtomic | internal/groupcart/redis_store.go:290-364 | a run in which each write still finds what its caller read leaves the shelf that whole atomic calls would have left |
| CartRuns.WholeCallsAreRuns | internal/groupcart/redis_store.go:60-364 | and every whole call is a run of one caller's steps, from every shelf |
| CartRuns.UnlocksAreCrossings | internal/groupcart/redis_store.go:206-213 | over runs of whole calls outside the demo geofence a cart is unlocked iff its total reaches the threshold, the unlock event fires once per upward crossing, and without removals at most once |
| CartRuns.RemovalsArmTheEvent | internal/groupcart/redis_store.go:206-321 | wherever one new item brings a locked cart to its threshold, adding it and taking it out n times announces the unlocking n times |
| CartRuns.TornRunsStayExact | internal/groupcart/redis_store.go:60-364 | in every interleaving outside the demo geofence, torn or not, every stored cart is unlocked iff its total reaches the threshold, and the unlock event fires exactly when an addition takes the total across |
| BillSplits.ComputeBillSplit | internal/groupcart/billsplit.go:15-41 | succeeds iff the items add up to the total; then everybody taking part owes their own items, nobody else is charged, and the shares add up to the total |
| BillSplits.IdleOweNothing | internal/groupcart/billsplit.go:21-29 | a member who added nothing owes zero |
| BillSplits.AdditionsAreBilledToTheirPayers | internal/groupcart/billsplit.go:25-29 | while a cart is only added to, by however many callers, every share grows by exactly that person's own items |
| BillSplits.SplitReachable | internal/groupcart/billsplit.go:31-34 | a cart that any interleaving of the store's operations left on the shelf never fails to split |
| Trips.RedisTripStore.JoinTripAtomic | internal/trip/redis_store.go:12-106 | the script's loops, insertions and fee compute `Join`; a missing trip is an error and changes nothing; empty lists are stored and cannot be read back |
| Trips.JoinUpdatesOneRecord | internal/trip/redis_store.go:42-82 | the first record that counts as the member's takes the new id, items, total and a name that is not empty, and keeps order, flat and colour, every other record stays; without one the order and member come on board at the end, unless the order is there |
| Trips.JoinWithoutAMember | internal/trip/redis_store.go:77-82 | without a member only a new order comes on board |
| Trips.JoinSetsTheFee | internal/trip/redis_store.go:84-101 | the fee goes by the longer list: the base below two, half of it rounded down for two, nothing above |
| Trips.TakenForIff | internal/trip/redis_store.go:53-56 | a record counts as the member's by its id, by the two persona names, by "Flat 304" anywhere in its flat, or by the two id prefixes |
| Trips.UnreadableIff | internal/trip/redis_store.go:77-105 | the answer cannot be read iff the trip has no members and none comes on board, because nobody is named or the order is on it already, or it has no orders and the joiner is taken for a member |
| Trips.HostJoinIsUnreadable | internal/trip/redis_store.go:42-105 | a trip created with one order and no members: joining it with that order answers with an error and is stored |
| Trips.JoinIsIdempotent | internal/trip/redis_store.go:40-82 | for every trip and every argument a repeated join changes nothing |
| Trips.JoinKeeps | internal/trip/redis_store.go:77-101 | order ids stay distinct, fee + discount = base, the pool grows by at most one, the fee is the Go function's for a base that is not negative, and no join raises it for a fixed one |
| Trips.FeesAgreeIff | internal/trip/models.go:100-110 | script and Go function agree iff the count is not two or the base is not a negative odd number |
| Trips.JoinOrderDoesNotMatter | internal/trip/redis_store.go:40-97 | for different people who are no shared persona every order of their joins gives the same order ids, pool size, fee and discount |
| Trips.JoinOrderIsFreeIff | internal/trip/redis_store.go:53-97 | for two strangers with new orders on any trip without personas, both orders of their joins give the same pool iff both or neither is a persona |
| Trips.PersonasMakeOrderMatter | internal/trip/redis_store.go:53-74 | a persona first pools one, the other one first pools two |

## Left out

- HTTP handlers, WebSocket hub, Pub/Sub, event streams, logging, Redis transport and JSON: plumbing. Each script is one atomic step on a map, and a Redis pipeline is one step.
- Redis errors in the class methods: only the concurrent engine has steps for a reservation that fails with an error, before or after its script ran; the cart and trip stores have only the errors of missing, inactive or unreadable values.
- Rounding of floating-point numbers and the wrap-around of 64-bit integers: loads are exact quotients, money and times are integers, distances, delays and rates are reals. The distance function is arbitrary.
- Timestamps, waiting-time statistics and the service and system time sums: they do not influence any decision.
- Aliasing of orders: an order is a value that is in one place, where the source has pointers; the field updates of a picker and of a merge are made on the value.
- Stock keys are pairs of store id and stock code, where the source joins both into one string.
- Pickers.PickerPool.ServeNext: one turn without interruption; the loop is `Pickers.PickerPool.Work`.
- Pickers.PickerPool.Work: the only picker of a store nobody else touches, with the answers to its looks for cancellation as a parameter; several pickers, and others in between, are in `Protocol`.
- Engines.DecisionEngine.EvaluateBreach: one uninterrupted evaluation; the cart lookup in Redis is a parameter, and the single steps are in `Protocol`.
- Protocol: the loads, distances and quotes the engine reads are left open, so that any value it may see at any moment is covered; the target is any other store. Starting times are positive and never go back, as the one monitor loop makes them. That loop is the only evaluator.
- Progress.EveryRunCanFinish: that the threads are scheduled at all is not modelled; the bounds on steps hold for every schedule. The report is reached by a schedule that starts no further evaluation, and a monitor that finds a tick and its cancellation at once may start one more.
- PingPong.ReRoutesAreBounded: an evaluation is one step, from its reads to its hand-over; what dispatchers and pickers do within one is in `Protocol`, where the potential is not followed.
- Runs.Bisimulation: an evaluation is one step of both decision makers. The stand-alone re-router has no group carts, so in full orchestration the runs compared see no active cart.
- CartRuns.EveryStoredCartIsHonest: for prices that are not negative, which the add handler does not enforce; `Carts.AddKeepsDiscountIff` and `Carts.RemoveKeepsTotalIff` say exactly when each promise survives other prices. Carts written by the simulation with a total and no items are no start states.
- CartRuns.UnlocksAreCrossings: outside the demo geofence, whose join path sums up the total without looking at the discount (`Carts.DemoJoinKeepsExactIff`).
- The accounting check in the middle of a run: its reads are not one snapshot. Only the step ledger and the check at the report are claimed.
- Several evaluators at once: the cooldown is checked and then set, and only the single monitor loop makes that safe.
- Perishability of merged orders: a merged order keeps only its own flag, so nothing is said about the flags of the orders absorbed in it.
- Key expiry, the time-to-live reaper, the substitution engine, the rider simulation and the geofence arithmetic.
