# Verified models of the trading platform's state machines

This project models the deterministic cores of the trading platform in Dafny and proves what they
keep over whole runs. Every model follows the code; where the code and its comments or tests disagree,
the code is modelled, a lemma gives an input on which the documented behaviour fails, and another says
exactly when it holds.

Check everything with `dafny verify dfyconfig.toml`.

## What is modelled

* **Timers** (`Timers`, `Scheduler`, `SimClock`). The scheduler's heap with lazy deletion is a multiset
  whose ties fall any way; a cron expression is any strict-successor function on timestamps. The class
  is proved against a table of live timers, and the run theorems are about that table.
* **Metadata** (`Confdata`, `InternTable`, `Metadata`). Integer-id tables over an append-only intern
  table, rebuilt from successive configurations, and the string-keyed configuration they refine. Hash
  maps are iterated in any order.
* **Order accounting** (`Reservations`, `Positions`, `Oms`, `OmsFills`, `OmsRuns`, `OmsHolds`, `OmsExamples`, `OmsCore`,
  `Batching`).
  Placing, cancelling, reporting and re-checking orders as functions of the state, a class that performs
  them in place, and the position and reservation invariants over every run. Amounts are reals.
* **Registry** (`Lease`, `LeaseConflicts`, `Heartbeat`, `Discovery`). The lease as a state machine with requests and replies
  that may be lost or late; the heartbeat loop over any sequence of outcomes; the discovery cache with its
  snapshot, swap and live phases.
* **Backtest queue** (`EventQueue`). The merge of sorted streams and a heap, refining one priority queue.
* **Gateway** (`SemanticPipeline`, `PositionKeys`, `GwExecutor`). Trade de-duplication, zero transitions of
  positions, and the sharded execution pool as interleaved steps.
* **Strategy engine** (`LiveEngine`). Tick coalescing, pause, resume and stop over batches cut in any way.
* **Configuration** (`Config`, `ConfigDiff`). Canonical form, field-level diff and drift.
* **Rate limiter** (`TokenBucket`). The token bucket over a clock that does not run backwards.

`Ordering` and `Reals` hold shared definitions.

## Where the code departs from its documentation

* Re-registering a timer key with a schedule that never fires keeps the old timer
  (`rust/crates/zk-core-rs/src/scheduler.rs:101-106` against `rust/crates/zk-core-rs/src/clock.rs:11-12`):
  `SimClock.SetTimerReplaces`, `SimClock.StaleTimerSurvives`.
* FireOnce emits nothing when the latest grid point is past the end (`scheduler.rs:236-246`), SkipMissed
  drops an on-time occurrence when an earlier one was missed (`scheduler.rs:257`), and FireAll drops cron
  occurrences beyond 10,000 in one drain (`scheduler.rs:287`): `SimClock.FireOnceCoalesces`,
  `SimClock.SkipMissedOnTime`, `SimClock.FireAllExact` and their counterexamples.
* An entry missing from one configuration and added again gets a fresh id
  (`rust/crates/zk-oms-rs/src/metadata_v2.rs:291-307` against `268-271`): `Metadata.ReaddedGatewayGetsFreshId`,
  `Metadata.ReaddedGateway`.
* The context cached when an order is placed has no order in it (`rust/crates/zk-oms-rs/src/oms_core.rs:328-330`),
  so a buy fill reported by order id is booked as a sell and released by quantity
  (`oms_core.rs:904-959`); a report that finds its order by exchange reference releases under id zero
  (`oms_core.rs:902`): `OmsRuns.ReportKeepsBooks`, `OmsHolds.HoldAfterReport`, with `OmsExamples.FilledBuy`,
  `OmsExamples.HalfFilledBuy`, `OmsExamples.HalfFilledByReference`. The step and run theorems take where the
  context comes from as a parameter.
* What is frozen or reserved is the quantity or value requested, the order carries it rounded to the venue's
  precision (`oms_core.rs:276-319`, `rust/crates/zk-oms-rs/src/order_mgr.rs:125-132` and `171-180`):
  `OmsRuns.SellRoundingLeak`, `OmsHolds.RoundedHold`, with `OmsExamples.RoundedSell`, `OmsExamples.RoundedBuy`.
* An order placed under an id in use replaces the order there, while a sell freezes again and a second
  reservation is refused (`oms_core.rs:304-319`): `OmsRuns.Overwritten`, `OmsExamples.PlacedTwice`.
* Gateways send the state of an order and its trades in separate reports, in no fixed order
  (`venue-integrations/ibkr/ibkr/ibkr_normalize.py:163-227`), so the frozen part is not the unfilled quantity of
  the open sells but what is set aside for sells, closed ones included: `OmsRuns.LiveSell`,
  `OmsRuns.RunKeepsBooks`, `OmsExamples.StateFirst`; where states agree with trades it is: `OmsRuns.AgreeingRun`.
* Cleanup runs again for every later report on a closed order (`oms_core.rs:720-752`), and a re-check
  releases without unfreezing (`oms_core.rs:1016-1018`): `OmsRuns.LateReport`, `OmsRuns.Reopened`,
  `OmsHolds.LateHold`, `OmsRuns.RecheckKeepsBooks`, with `OmsExamples.ThawedTwice`,
  `OmsExamples.LateTradeTakesOthers`, `OmsExamples.ReopenedUnfrozen`, `OmsExamples.TimedOutStaysFrozen`.
* Buffered reports are replayed without booking their trades (`oms_core.rs:754-770`): `OmsRuns.ReplayKeepsBooks`,
  `OmsHolds.ReplayKeepsHolds`, `OmsExamples.ReplayedTradeIsNotBooked`. Holds are not restored
  (`oms_core.rs:127-136`): `OmsHolds.RestoredHoldNothing`, `OmsExamples.RestoredBuy`.
* Streams are sorted by time only (`rust/crates/zk-backtest-rs/src/event_queue.rs:93`), so "maximum priority
  on tie" needs simultaneous events of a stream to have equal priority: `EventQueue.TimerFirst`,
  `EventQueue.DrainsInOrder`, `EventQueue.AlwaysInOrder`.
* `Fenced` may be caused by the instance's own late write (`rust/crates/zk-infra-rs/src/nats_kv.rs:145-151`):
  `LeaseConflicts.ConflictIsReal`, `LeaseConflicts.FencedByItself`.
* A tick is lost when a later one of its key, in the same batch, falls after a pause or stop
  (`rust/crates/zk-engine-rs/src/engine_event.rs:175-194`): `LiveEngine.LastTickDelivered`, `LiveEngine.LostTick`.
* Position keys split at the first ':' (`rust/crates/zk-gw-svc/src/semantic_pipeline.rs:177`), diff paths join
  keys with '/' unescaped, unlike section 3 of RFC 6901 (`rust/crates/zk-infra-rs/src/config_mgmt.rs:142`):
  `PositionKeys.KeyRoundTrip`, `PositionKeys.ColonMisread`, `ConfigDiff.TextIsUnique`, `ConfigDiff.SameText`.
* `acquire` never returns for more tokens than the burst (`venue-integrations/ibkr/ibkr/rate_limiter.py:30-40`):
  `TokenBucket.WaitSuffices`, `TokenBucket.TooMuchForever`.

## Model

| member | source | states |
|---|---|---|
| `Timers.NextIntervalFireIsLeast` | rust/crates/zk-core-rs/src/scheduler.rs:453-460 | the next interval fire is the least grid point after the current time |
| `Timers.AtOrAfterIsNext` | rust/crates/zk-core-rs/src/scheduler.rs:463-475 | the at-or-after form is the next fire after the millisecond before |
| `Timers.LatestIntervalFireIsGreatest` | rust/crates/zk-core-rs/src/scheduler.rs:478-488 | for every target: the greatest grid point not after it, or the start when there is none |
| `Timers.FirstIntervalFireIsLeast` | rust/crates/zk-core-rs/src/scheduler.rs:81-99 | the first fire of an interval registration is the least grid point not before now and the start |
| `Timers.AdmitMeaning` | rust/crates/zk-core-rs/src/scheduler.rs:63-152 | a well-formed request is admitted at the least instant it wants, and is a no-op exactly when it wants none |
| `Timers.AfterIsReady` | rust/crates/zk-core-rs/src/scheduler.rs:226-273 | a drain leaves a timer waiting for an occurrence of its own, later than now |
| `Timers.FiresAreDetermined` | rust/crates/zk-core-rs/src/scheduler.rs:412-417 | two outputs of a drain with the same live timers are equal: heap order cannot show |
| `Scheduler.FireAllInterval` | rust/crates/zk-core-rs/src/scheduler.rs:207-233 | the catch-up loop emits exactly the owed grid points, in increasing order |
| `Scheduler.FireAllCron` | rust/crates/zk-core-rs/src/scheduler.rs:281-323 | the cron catch-up loop emits exactly the owed occurrences of rank below the cap, in increasing order, and knows when the schedule has run out |
| `Scheduler.LastCron` | rust/crates/zk-core-rs/src/scheduler.rs:324-379 | the FireOnce loop finds the last occurrence not after now, and its successor is the successor of now |
| `Scheduler.DispatchInterval` | rust/crates/zk-core-rs/src/scheduler.rs:203-275 | each policy emits what it selects from what is owed, and the timer is left at its next instant |
| `Scheduler.DispatchCron` | rust/crates/zk-core-rs/src/scheduler.rs:276-408 | the same for cron timers |
| `Scheduler.SortedFiresAreStrict` | rust/crates/zk-core-rs/src/scheduler.rs:412-417 | after sorting by (scheduled time, key) no two fires of a drain tie |
| `Scheduler.Scheduler.constructor` | rust/crates/zk-core-rs/src/scheduler.rs:53-61 | an empty scheduler has no live timer and satisfies the heap/table invariant |
| `Scheduler.Scheduler.Register` | rust/crates/zk-core-rs/src/scheduler.rs:63-152 | registration makes the timer live as specified and keeps: one heap entry of the current generation per active key, all others stale, cancelled keys inactive |
| `Scheduler.Scheduler.Cancel` | rust/crates/zk-core-rs/src/scheduler.rs:155-162 | true exactly for an active key, which is then no longer live |
| `Scheduler.Scheduler.DrainDue` | rust/crates/zk-core-rs/src/scheduler.rs:166-420 | terminates; returns exactly the selected fires of the live timers, strictly ordered by (time, key), lag never negative; afterwards nothing live is due; stale entries never fire |
| `Scheduler.Scheduler.PeekNextFire` | rust/crates/zk-core-rs/src/scheduler.rs:423-440 | the earliest live pending time; None exactly when nothing is live |
| `Scheduler.Scheduler.IsEmpty` | rust/crates/zk-core-rs/src/scheduler.rs:443-445 | exactly when no timer is live |
| `SimClock.SimClock.SetTimer` | rust/crates/zk-core-rs/src/sim_clock.rs:29-31 | a malformed request is refused and changes nothing; otherwise the live timers are those of a registration at the current time |
| `SimClock.SimClock.CancelTimer` | rust/crates/zk-core-rs/src/sim_clock.rs:33-35 | true exactly for a live key, which is then gone; time and the other timers stay |
| `SimClock.SimClock.AdvanceTo` | rust/crates/zk-core-rs/src/sim_clock.rs:37-46 | a move backward is refused and changes nothing; otherwise exactly the due fires, strictly ordered by (time, key) |
| `SimClock.FireAllExact` | rust/crates/zk-core-rs/src/scheduler.rs:207-233 | over any run that leaves it alone, a FireAll timer has fired exactly what it owed, if and only if no drain met more cron occurrences than the cap |
| `SimClock.FireAllIgnoresSteps` | rust/crates/zk-core-rs/src/sim_clock.rs:37-46 | two runs to the same time fire the same instants however they cut the way |
| `SimClock.IntervalsHaveNoCap` | rust/crates/zk-core-rs/src/scheduler.rs:207-233 | for interval timers the cap condition always holds |
| `SimClock.IntervalFireAllCoversGrid` | rust/crates/zk-core-rs/src/scheduler.rs:81-115 | every grid point from the first fire to min(now, end) fires, and nothing else |
| `SimClock.ScheduledTimesIncrease` | rust/crates/zk-core-rs/src/scheduler.rs:166-420 | per registration, scheduled times strictly increase over a whole run, for every policy |
| `SimClock.StandsByTime` | rust/crates/zk-core-rs/src/scheduler.rs:226-273 | where a timer stands after any run that leaves it alone depends on the final time only, for every policy |
| `SimClock.LiveByTime` | rust/crates/zk-core-rs/src/sim_clock.rs:37-46 | a run of advances leaves the timers as one advance to its final time would |
| `SimClock.InactiveIsSilent` | rust/crates/zk-core-rs/src/scheduler.rs:166-183 | a key that is not active fires nothing until it is registered again |
| `SimClock.CancelSilences` | rust/crates/zk-core-rs/src/scheduler.rs:155-162 | so nothing fires between a successful cancel and a re-registration |
| `SimClock.SetTimerReplaces` | rust/crates/zk-core-rs/src/scheduler.rs:101-134 | a malformed request changes nothing; any other leaves the key with a timer that owes exactly the wanted instants (none, if none is wanted) exactly when some instant is wanted or the key had no timer |
| `SimClock.StaleTimerSurvives` | rust/crates/zk-core-rs/src/clock.rs:11-13 | counterexample to "replaces": an expired re-registration leaves the old timer firing |
| `SimClock.FireOnceCoalesces` | rust/crates/zk-core-rs/src/scheduler.rs:234-254 | FireOnce emits the latest owed occurrence exactly when none past the end of the window was reached |
| `SimClock.FireOnceLosesLast` | rust/crates/zk-core-rs/src/scheduler.rs:236-246 | counterexample: a jump over the end swallows occurrences inside the window |
| `SimClock.SkipMissedOnTime` | rust/crates/zk-core-rs/src/scheduler.rs:255-272 | SkipMissed emits an on-time occurrence exactly when no earlier one was missed in the same drain |
| `SimClock.SkipMissedDropsOnTime` | rust/crates/zk-core-rs/src/scheduler.rs:257-272 | counterexample: an on-time occurrence dropped |
| `SimClock.CronCapLoses` | rust/crates/zk-core-rs/src/scheduler.rs:281-323 | counterexample: a per-millisecond cron loses an occurrence beyond the cap |
| `InternTable.IdsAreForever` | rust/crates/zk-oms-rs/src/intern_v2.rs:22-46 | over any sequence of interned strings, an id once given resolves to the same string |
| `InternTable.InternTable.Intern` | rust/crates/zk-oms-rs/src/intern_v2.rs:22-32 | the same string gets the same id, a new one the next; nothing else moves |
| `InternTable.InternTable.Resolve` | rust/crates/zk-oms-rs/src/intern_v2.rs:34-37 | the string of an allocated id |
| `InternTable.InternTable.TryResolve` | rust/crates/zk-oms-rs/src/intern_v2.rs:39-42 | None exactly for an id not allocated |
| `InternTable.InternTable.Lookup` | rust/crates/zk-oms-rs/src/intern_v2.rs:44-47 | the inverse of resolving |
| `Confdata.Routes` | rust/crates/zk-oms-rs/src/config.rs:74-113 | the routes of managed accounts; per account the last one given |
| `Confdata.Gateways` | rust/crates/zk-oms-rs/src/config.rs:81-90 | the gateways some managed route uses; the last one given per key |
| `Confdata.Venues` | rust/crates/zk-oms-rs/src/config.rs:92-98 | gateways listed under their upper-cased venue, exactly |
| `Confdata.SymbolTables` | rust/crates/zk-oms-rs/src/config.rs:119-135 | each gateway sees the enabled instruments of its venue, the last one per symbol |
| `Confdata.TradingConfigs` | rust/crates/zk-oms-rs/src/config.rs:155-163 | the last config per instrument, defaults exactly for instruments without one |
| `Confdata.NewConfdata` | rust/crates/zk-oms-rs/src/config.rs:67-176 | the whole construction, map by map: last route, gateway, instrument and trading config, defaults where there is none, symbol tables per gateway; with distinct codes and (venue, symbol) pairs both instrument lookups agree |
| `Confdata.DistinctIsUnambiguous` | rust/crates/zk-oms-rs/src/config.rs:115-152 | distinct entries make the lookup by gateway find exactly the instrument in force |
| `Metadata.RebuildGateways` | rust/crates/zk-oms-rs/src/metadata_v2.rs:277-308 | over any map order: entries of the new config are indexed, known ones keep their id, none is re-pointed |
| `Metadata.RebuildRoutes` | rust/crates/zk-oms-rs/src/metadata_v2.rs:309-329 | each route points at the id of its own gateway, in range |
| `Metadata.EnsureAsset` | rust/crates/zk-oms-rs/src/metadata_v2.rs:334-368 | an asset name gets its old id or a new one |
| `Metadata.RebuildAssets` | rust/crates/zk-oms-rs/src/metadata_v2.rs:330-398 | every asset named by the config is indexed under a stable id |
| `Metadata.RebuildInstruments` | rust/crates/zk-oms-rs/src/metadata_v2.rs:399-474 | every instrument is indexed under a stable id, its asset links point at the assets it names |
| `Metadata.LinkGateways` | rust/crates/zk-oms-rs/src/metadata_v2.rs:463-474 | an instrument is entered under its symbol for exactly the gateways of its venue |
| `Metadata.RebuildTrading` | rust/crates/zk-oms-rs/src/metadata_v2.rs:476-498 | trading configs under the id of their instrument |
| `Metadata.Rebuild` | rust/crates/zk-oms-rs/src/metadata_v2.rs:272-502 | a rebuild yields sound tables that reflect the config, extend the old ones and keep every id still configured |
| `Metadata.RebuildAll` | rust/crates/zk-oms-rs/src/metadata_v2.rs:272-502 | over any sequence of configs: no id is re-pointed, and what was configured at first has its id still exactly when no config of the sequence left it out |
| `Metadata.IdsResolveForever` | rust/crates/zk-oms-rs/src/metadata_v2.rs:268-271 | an allocated gateway, asset or instrument id resolves to the same name in every later table |
| `Metadata.GwLookupMeaning` | rust/crates/zk-oms-rs/src/metadata_v2.rs:463-474 | what the (gateway, symbol) index holds, in terms of the config |
| `Metadata.CodeLookupAgrees` | rust/crates/zk-oms-rs/src/metadata_v2.rs:505-509 | lookup by code succeeds exactly when the string-keyed config has the code, with the same data |
| `Metadata.GwLookupAgrees` | rust/crates/zk-oms-rs/src/metadata_v2.rs:512-520 | lookup by gateway and symbol agrees with the string-keyed config in both directions |
| `Metadata.MetadataTables.FromConfdata` | rust/crates/zk-oms-rs/src/metadata_v2.rs:88-266 | construction: sound tables that reflect the config |
| `Metadata.MetadataTables.RebuildFromConfig` | rust/crates/zk-oms-rs/src/metadata_v2.rs:272-502 | hot reload: as Rebuild, in place |
| `Metadata.MetadataTables.ResolveInstrument` | rust/crates/zk-oms-rs/src/metadata_v2.rs:505-509 | the entry of a code; by CodeLookupAgrees found exactly when the config has the code |
| `Metadata.MetadataTables.ResolveInstrumentByGw` | rust/crates/zk-oms-rs/src/metadata_v2.rs:512-520 | the entry of a gateway and symbol; by GwLookupAgrees the one the config serves there |
| `Metadata.MetadataTables.RouteOf` | rust/crates/zk-oms-rs/src/metadata_v2.rs:523-525 | the route of an account |
| `Metadata.ReaddedGatewayGetsFreshId` | rust/crates/zk-oms-rs/src/metadata_v2.rs:291-307 | a gateway dropped and re-added keeps its id exactly when the config in between had it; the old slot still resolves to it |
| `Metadata.ReloadTwice` | rust/crates/zk-oms-rs/src/metadata_v2.rs:272-308 | reloading twice finds the gateway under its old id exactly when the config in between had it |
| `Metadata.ReaddedGateway` | rust/crates/zk-oms-rs/src/metadata_v2.rs:291-307 | one gateway, dropped and re-added, under two ids |
| `Reservations.ReservationManager.ReserveFor` | rust/crates/zk-oms-rs/src/reservation_mgr.rs:25-53 | refused for a known order id; otherwise hold and index grow by the quantity |
| `Reservations.ReservationManager.ReleaseOrder` | rust/crates/zk-oms-rs/src/reservation_mgr.rs:56-67 | the hold and its share of the index are gone |
| `Reservations.ReservationManager.ReleaseFilled` | rust/crates/zk-oms-rs/src/reservation_mgr.rs:70-87 | releases at most what is held |
| `Reservations.ReservationManager.Total` | rust/crates/zk-oms-rs/src/reservation_mgr.rs:90-96 | the index is the sum over live holds |
| `Reservations.ReservationManager.CheckAvailable` | rust/crates/zk-oms-rs/src/reservation_mgr.rs:99-116 | true exactly when the sum of the holds plus the requirement fits |
| `Reservations.IndexIsSumOverAnyRun` | rust/crates/zk-oms-rs/src/reservation_mgr.rs:25-96 | under any interleaving with non-negative amounts the index equals the sum of the holds |
| `Reservations.CheckThenReserve` | rust/crates/zk-oms-rs/src/reservation_mgr.rs:99-116 | check-then-reserve leaves the reserved total within the available balance |
| `Reservations.HeldAfterPartial` | rust/crates/zk-oms-rs/src/reservation_mgr.rs:70-87 | partial releases subtract, never below zero, from one order only |
| `Positions.PositionManager.Freeze` | rust/crates/zk-oms-rs/src/position_mgr.rs:124-152 | moves quantity from available to frozen, or refuses and changes nothing |
| `Positions.PositionManager.Release` | rust/crates/zk-oms-rs/src/position_mgr.rs:155-170 | moves back at most what is frozen |
| `Positions.PositionManager.Apply` | rust/crates/zk-oms-rs/src/position_mgr.rs:173-206 | settles the delta with its clamps and the sign flip |
| `Positions.SellFill` | rust/crates/zk-oms-rs/src/position_mgr.rs:173-206 | a sell fill comes out of frozen and total, and keeps the split, exactly when that much is frozen |
| `Positions.BuyFill` | rust/crates/zk-oms-rs/src/position_mgr.rs:173-206 | a buy fill goes into available and total and keeps the split |
| `Positions.FreezeUnfreeze` | rust/crates/zk-oms-rs/src/position_mgr.rs:124-170 | freezing and unfreezing is a round trip |
| `OmsFills.UpdateAgrees` | rust/crates/zk-oms-rs/src/order_mgr.rs:390-680 | after a consistent report the filled quantity is the sum of all trades and the terms are unchanged |
| `OmsFills.UpdateKeeps` | rust/crates/zk-oms-rs/src/order_mgr.rs:390-680 | any report keeps the terms and adds exactly its trades to the traded quantity; one that is no update changes nothing |
| `OmsFills.UpdateFills` | rust/crates/zk-oms-rs/src/order_mgr.rs:390-680 | no report lowers the filled quantity |
| `OmsFills.FillsSettle` | rust/crates/zk-oms-rs/src/oms_core.rs:904-943 | on a balance-checked instrument fills are booked as buys exactly when the context carries a buy |
| `OmsFills.SoldTidy` | rust/crates/zk-oms-rs/src/position_mgr.rs:173-206 | whatever is sold, up to the total, comes out of the frozen part first and out of the total |
| `OmsFills.SoldAndThawed` | rust/crates/zk-oms-rs/src/oms_core.rs:704-752 | what a report leaves frozen is what should be exactly when what it takes comes out of what was set aside for its sell, or nothing should be frozen |
| `OmsFills.BoughtRises` | rust/crates/zk-oms-rs/src/oms_core.rs:911-943 | buys go into the available part and the total |
| `OmsFills.SoldIsNotBought` | rust/crates/zk-oms-rs/src/oms_core.rs:904-943 | booking a buy as a sell never ends where booking it as a buy would |
| `OmsFills.FillsTouchOne` | rust/crates/zk-oms-rs/src/oms_core.rs:893-966 | fills touch one position and one hold only |
| `OmsRuns.PlaceKeepsBooks` | rust/crates/zk-oms-rs/src/oms_core.rs:262-330 | placing any order, under a fresh id or one in use, rounded or not, keeps the books exactly when it is sound and sets aside what was frozen for it |
| `OmsRuns.Overwritten` | rust/crates/zk-oms-rs/src/oms_core.rs:304-319 | an order placed under an id in use keeps the books exactly when the order it replaces had not traded and nothing was set aside for it |
| `OmsRuns.OpeningBooks` | rust/crates/zk-oms-rs/src/oms_core.rs:127-136 | a core without orders starts with its books in order exactly when its positions are long, split and unfrozen |
| `OmsRuns.SellReport` | rust/crates/zk-oms-rs/src/oms_core.rs:676-752 | any report on any sell, live or closed, keeps the books exactly when it leaves the order sound and takes out of the frozen part what is its own |
| `OmsRuns.LiveSell` | rust/crates/zk-oms-rs/src/oms_core.rs:676-752 | on an open sell, whether or not the state agrees with the trades: exactly when it is not overtraded, and if it closes, its closing state covers its trades (or nothing else is frozen) |
| `OmsRuns.ReportKeepsBooks` | rust/crates/zk-oms-rs/src/oms_core.rs:676-752 | any report on any order keeps the books exactly when it is sound |
| `OmsRuns.ReplayKeepsBooks` | rust/crates/zk-oms-rs/src/oms_core.rs:754-770 | a replayed report moves no position, so it keeps the books exactly when it trades nothing and what is set aside stays |
| `OmsRuns.StepKeepsBooks` | rust/crates/zk-oms-rs/src/oms_core.rs:207-1032 | a step of any kind keeps the books exactly when it is sound |
| `OmsRuns.RecheckKeepsBooks` | rust/crates/zk-oms-rs/src/oms_core.rs:987-1032 | rejecting a timed-out order keeps the books exactly when it is not a sell with quantity frozen |
| `OmsRuns.RunKeepsBooks` | rust/crates/zk-oms-rs/src/oms_core.rs:207-1032 | in any run the books hold throughout exactly when every step is sound; the books: available + frozen = total, frozen = what is set aside for sells, total = opening + bought - sold |
| `OmsRuns.ResolvedRunKeepsBooks` | rust/crates/zk-oms-rs/src/oms_core.rs:676-752 | with contexts taken from the order book, any fair mix of buys, sells, partial fills and closings keeps the books, also when states arrive before the trades they count |
| `OmsRuns.AgreeingRun` | rust/crates/zk-oms-rs/src/oms_core.rs:207-1032 | in sound runs whose states agree with their trades, frozen = unfilled quantity of the open sells |
| `OmsRuns.FrozenIsUnfilled` | rust/crates/zk-oms-rs/src/position_mgr.rs:124-170 | where every order is filled by its trades, what is frozen is what open sells have left |
| `OmsRuns.NeverShort` | rust/crates/zk-oms-rs/src/position_mgr.rs:186-203 | in a sound run totals never go below zero and no position turns short, whatever is bought and sold |
| `OmsRuns.SellRoundingLeak` | rust/crates/zk-oms-rs/src/order_mgr.rs:125-132 | an accepted sell keeps the books exactly when rounding to the venue precision changes nothing |
| `OmsRuns.LateReport` | rust/crates/zk-oms-rs/src/oms_core.rs:704-752 | any report on a sell that was closed and stays closed keeps the books exactly when it is no update, or the order is completely filled and its trades come out of what was set aside, or nothing else is frozen |
| `OmsRuns.Reopened` | rust/crates/zk-oms-rs/src/oms_core.rs:676-752 | a report that reopens a closed sell keeps the books exactly when all it has left was set aside still, or it has nothing left and any volume is covered |
| `OmsRuns.LinkageReopens` | rust/crates/zk-oms-rs/src/order_mgr.rs:390-680 | a linkage that comes alone turns a rejected order back to booked |
| `OmsRuns.BuyReport` | rust/crates/zk-oms-rs/src/oms_core.rs:676-752 | a report on a buy, live or closed, keeps the books exactly when it leaves the order sound and its trades, if any, are booked as buys |
| `OmsExamples.FilledBuy` | rust/crates/zk-oms-rs/src/oms_core.rs:328-330 | a buy of one placed and filled: through the cached context the account ends one short, through the order book one long |
| `OmsExamples.StateFirst` | rust/crates/zk-oms-rs/src/oms_core.rs:704-752 | a state that arrives before its trade: the order is closed with one frozen, until the trade comes |
| `OmsExamples.ThawedTwice` | rust/crates/zk-oms-rs/src/oms_core.rs:720-752 | a fee on a cancelled sell thaws what was frozen for another |
| `OmsExamples.LateTradeTakesOthers` | rust/crates/zk-oms-rs/src/oms_core.rs:704-752 | a late trade on a cancelled sell uses up what was frozen for another |
| `OmsExamples.ReopenedUnfrozen` | rust/crates/zk-oms-rs/src/order_mgr.rs:464-474 | a rejected sell that a linkage reopens has nothing frozen |
| `OmsExamples.TimedOutStaysFrozen` | rust/crates/zk-oms-rs/src/oms_core.rs:987-1032 | a sell rejected after a timeout stays frozen |
| `OmsExamples.ReplayedTradeIsNotBooked` | rust/crates/zk-oms-rs/src/oms_core.rs:754-770 | a replayed trade fills its order and moves no position |
| `OmsExamples.PlacedTwice` | rust/crates/zk-oms-rs/src/oms_core.rs:304-319 | a sell placed twice under one id freezes twice |
| `OmsExamples.RoundedSell` | rust/crates/zk-oms-rs/src/order_mgr.rs:125-132 | a sell of 1.234 goes out as 1.23 with 1.234 frozen |
| `OmsHolds.HeldAfterFills` | rust/crates/zk-oms-rs/src/oms_core.rs:944-959 | the fills release their amount, at most what is held, and keep the index exact |
| `OmsHolds.RunKeepsHolds` | rust/crates/zk-oms-rs/src/oms_core.rs:207-1032 | in any run the holds are exact throughout exactly when every step is sound; exact: an open buy holds (qty - traded) * order price whatever the fill prices, an open sell what it has not traded, a closed order nothing |
| `OmsHolds.ResolvedRunKeepsHolds` | rust/crates/zk-oms-rs/src/oms_core.rs:676-752 | with contexts taken from the order book and reports by id, any fair run keeps the holds exact: part-filled buys included, and states before trades |
| `OmsHolds.StepKeepsHolds` | rust/crates/zk-oms-rs/src/oms_core.rs:207-1032 | a step of any kind keeps all holds exact exactly when it is sound |
| `OmsHolds.ReportKeepsHolds` | rust/crates/zk-oms-rs/src/oms_core.rs:676-752 | any report, on an open order or a closed one, keeps the holds exact exactly when it is sound |
| `OmsHolds.LateHold` | rust/crates/zk-oms-rs/src/oms_core.rs:720-752 | a report on a closed order keeps the holds exact exactly when nothing becomes due |
| `OmsHolds.PlaceKeepsHolds` | rust/crates/zk-oms-rs/src/oms_core.rs:276-319 | placing any order keeps the holds exact exactly when what is then held under its id is due |
| `OmsHolds.RoundedHold` | rust/crates/zk-oms-rs/src/order_mgr.rs:171-180 | an accepted fresh order keeps the holds exact exactly when rounding leaves what is reserved equal to what is due |
| `OmsHolds.ReplayKeepsHolds` | rust/crates/zk-oms-rs/src/oms_core.rs:754-770 | any replayed report releases nothing, so it keeps the holds exactly when what is due stays |
| `OmsHolds.PlacedHold` | rust/crates/zk-oms-rs/src/oms_core.rs:276-319 | an accepted order reserves its value or quantity, once |
| `OmsHolds.BuyStaysWithinBalance` | rust/crates/zk-oms-rs/src/oms_core.rs:276-296 | a checked buy never commits more than the account has available |
| `OmsHolds.HoldAfterReport` | rust/crates/zk-oms-rs/src/oms_core.rs:676-752 | in the state after a report its hold is what is due exactly when, on an open order, the report closes it, trades nothing, names a sell, or a buy whose context carries the order, or the price makes quantity and value coincide; on a closed one, when nothing is due |
| `OmsExamples.HalfFilledBuy` | rust/crates/zk-oms-rs/src/oms_core.rs:944-959 | a buy of one at ten filled half at nine: 9.5 stay held through the cached context, 5 through the order book |
| `OmsExamples.HalfFilledByReference` | rust/crates/zk-oms-rs/src/oms_core.rs:902-902 | the same reported by exchange reference: 10 stay held |
| `OmsExamples.RoundedBuy` | rust/crates/zk-oms-rs/src/order_mgr.rs:171-180 | a buy of 1.234 at ten that goes out as 1.23 holds 12.34 while 12.3 is due |
| `OmsExamples.RestoredBuy` | rust/crates/zk-oms-rs/src/oms_core.rs:127-136 | a restored open buy holds nothing of what it is due |
| `OmsHolds.RestoredHoldNothing` | rust/crates/zk-oms-rs/src/oms_core.rs:127-136 | a restart restores no holds, so they are exact exactly when no restored order is due any |
| `OmsCore.OmsCore.constructor` | rust/crates/zk-oms-rs/src/oms_core.rs:127-136 | restored orders, positions and balances, nothing cached or held |
| `OmsCore.OmsCore.ProcessOrder` | rust/crates/zk-oms-rs/src/oms_core.rs:207-383 | the state is that of the specification; sent exactly when the order is accepted |
| `OmsCore.OmsCore.CheckBalances` | rust/crates/zk-oms-rs/src/oms_core.rs:262-322 | the pre-trade checks; a refused order leaves positions and holds alone |
| `OmsCore.OmsCore.ProcessFills` | rust/crates/zk-oms-rs/src/oms_core.rs:893-966 | booking the trades of a report one by one |
| `OmsCore.OmsCore.UpdateWithReport` | rust/crates/zk-oms-rs/src/order_mgr.rs:390-680 | applying the entries and an inferred state to the order |
| `OmsCore.OmsCore.ProcessOrderReport` | rust/crates/zk-oms-rs/src/oms_core.rs:676-770 | a whole report: fills, update, terminal cleanup, and the buffered reports replayed |
| `OmsCore.OmsCore.BookReport` | rust/crates/zk-oms-rs/src/oms_core.rs:676-715 | the context a report gets, cached first, and its fills |
| `OmsCore.OmsCore.Close` | rust/crates/zk-oms-rs/src/oms_core.rs:720-752 | terminal cleanup |
| `OmsCore.OmsCore.ReplayBuffered` | rust/crates/zk-oms-rs/src/oms_core.rs:754-770 | buffered reports update the order and nothing else |
| `OmsCore.OmsCore.ProcessCancel` | rust/crates/zk-oms-rs/src/oms_core.rs:435-546 | a cancel request only caches the context |
| `OmsCore.OmsCore.ProcessRecheckOrder` | rust/crates/zk-oms-rs/src/oms_core.rs:987-1032 | a pending order is rejected and its hold released |
| `OmsCore.OmsCore.Panic` | rust/crates/zk-oms-rs/src/oms_core.rs:181-185 | orders of the account are refused from now on |
| `OmsCore.OmsCore.DontPanic` | rust/crates/zk-oms-rs/src/oms_core.rs:186-190 | and accepted again |
| `OmsCore.InferState` | rust/crates/zk-oms-rs/src/order_mgr.rs:830-898 | the state inferred from trades, in one pass |
| `Batching.GroupingPreserves` | rust/crates/zk-oms-rs/src/oms_core.rs:385-429 | whatever order the gateways come in, each gets its request sequence and other actions keep their order |
| `Batching.Gather` | rust/crates/zk-oms-rs/src/oms_core.rs:390-401 | the actions of one-at-a-time handling, taken apart by gateway |
| `Batching.BatchProcess` | rust/crates/zk-oms-rs/src/oms_core.rs:385-429 | same final state as one-at-a-time handling; per gateway the same requests in the same order; batch cancels are the same code at 548-594 |
| `Lease.RunKeepsInv` | rust/crates/zk-infra-rs/src/nats_kv.rs:126-232 | in every run: revisions grow, and every revision held, named or acknowledged was written by that instance |
| `Lease.OneHolder` | rust/crates/zk-infra-rs/src/service_registry.rs:171-192 | at most one instance holds the current revision, and it is the owner |
| `Lease.HeartbeatsKeepOwner` | rust/crates/zk-infra-rs/src/nats_kv.rs:86-95 | the owner changes only by a registration, a deletion or expiry, never by a heartbeat |
| `Lease.StaleForever` | rust/crates/zk-infra-rs/src/nats_kv.rs:86-95 | a revision that is not current never becomes current again |
| `Lease.StaleUpdateFails` | rust/crates/zk-infra-rs/src/nats_kv.rs:86-95 | so an update against it is refused however the run goes on |
| `Lease.OustedForGood` | rust/crates/zk-infra-rs/src/service_registry.rs:295-328 | an ousted instance never writes again, whatever requests of its own are under way |
| `LeaseConflicts.ConflictIsReal` | rust/crates/zk-infra-rs/src/nats_kv.rs:145-206 | with no timeout since the last success, a conflict means that somebody else took the key, or it was deleted or expired |
| `LeaseConflicts.FencedByItself` | rust/crates/zk-infra-rs/src/nats_kv.rs:145-228 | counterexample: after a timeout the only instance is fenced by its own late write |
| `Heartbeat.HeartbeatLoop` | rust/crates/zk-infra-rs/src/nats_kv.rs:183-230 | stops exactly at the earlier of the first conflict and the first five failures in a row; keeps the last acknowledged revision |
| `Heartbeat.ShutdownOf` | rust/crates/zk-infra-rs/src/service_registry.rs:399-415 | shut down as fenced exactly when a conflict comes before any outage |
| `Heartbeat.CounterSeesOutage` | rust/crates/zk-infra-rs/src/nats_kv.rs:207-220 | the failure counter reaches five exactly at the end of five failures in a row |
| `Discovery.EntryPublishes` | rust/crates/zk-infra-rs/src/nats_kv_discovery.rs:221-252 | an entry publishes an event exactly when it changes the cache, and the event says how |
| `Discovery.FoldIsLatest` | rust/crates/zk-infra-rs/src/nats_kv_discovery.rs:221-252 | the cache holds, key by key, what the last well-formed entry says |
| `Discovery.SplitIndependent` | rust/crates/zk-infra-rs/src/nats_kv_discovery.rs:117-141 | where the settle timeout splits snapshot from live makes no difference; Watch is what ties the cache to their concatenation |
| `Discovery.Removals` | rust/crates/zk-infra-rs/src/nats_kv_discovery.rs:152-156 | a Remove for each dropped key, in any order, none idle |
| `Discovery.Upserts` | rust/crates/zk-infra-rs/src/nats_kv_discovery.rs:157-161 | an Upsert for each new or changed key, in any order, none idle |
| `Discovery.DiscoveryCache.Stage` | rust/crates/zk-infra-rs/src/nats_kv_discovery.rs:117-145 | the staging map is the fold of the snapshot |
| `Discovery.DiscoveryCache.Swap` | rust/crates/zk-infra-rs/src/nats_kv_discovery.rs:147-171 | the cache is replaced, and the events lead from the old to the new one without idle ones |
| `Discovery.DiscoveryCache.Live` | rust/crates/zk-infra-rs/src/nats_kv_discovery.rs:174-186 | live entries are folded in, each change published once |
| `Discovery.DiscoveryCache.Watch` | rust/crates/zk-infra-rs/src/nats_kv_discovery.rs:106-190 | one connection: untouched if it fails, else everything it delivered; events reproduce the cache |
| `Discovery.DiscoveryCache.WatchLoop` | rust/crates/zk-infra-rs/src/nats_kv_discovery.rs:101-192 | the same across any number of reconnects |
| `EventQueue.EventQueue.PushEvent` | rust/crates/zk-backtest-rs/src/event_queue.rs:168-170 | the contents grow by exactly that event, streams untouched |
| `EventQueue.EventQueue.AddEvents` | rust/crates/zk-backtest-rs/src/event_queue.rs:161-165 | the events of the stream, sorted by time whatever way ties fall |
| `EventQueue.EventQueue.PopEvent` | rust/crates/zk-backtest-rs/src/event_queue.rs:176-219 | removes an event of globally least time; a top of the heap, or the head of the first best stream if that comes strictly before the heap; of greatest priority too if streams are tie-ordered |
| `EventQueue.PopNext` | rust/crates/zk-backtest-rs/src/event_queue.rs:176-219 | the merge on values: which event goes, from where, and what is left |
| `EventQueue.PopMeans` | rust/crates/zk-backtest-rs/src/event_queue.rs:176-219 | so a pop is a legal step of one priority queue, heap first on ties |
| `EventQueue.PopTies` | rust/crates/zk-backtest-rs/src/event_queue.rs:176-219 | streams are tie-ordered exactly when the pop is of greatest priority and leaves tie-ordered streams |
| `EventQueue.DrainsInOrder` | rust/crates/zk-backtest-rs/src/event_queue.rs:176-219 | popping until empty gives events by time and priority exactly when every stream is tie-ordered; otherwise every drain pops one too early |
| `EventQueue.DrainsAll` | rust/crates/zk-backtest-rs/src/event_queue.rs:176-219 | a drain gives every event once |
| `EventQueue.PopAll` | rust/crates/zk-backtest-rs/src/event_queue.rs:176-219 | popping until empty ends and is a drain |
| `EventQueue.BestStream` | rust/crates/zk-backtest-rs/src/event_queue.rs:183-193 | the first stream whose head nothing comes before |
| `EventQueue.EventQueue.PeekTs` | rust/crates/zk-backtest-rs/src/event_queue.rs:222-235 | the least time in the queue, hence that of the next pop |
| `EventQueue.EventQueue.IsEmpty` | rust/crates/zk-backtest-rs/src/event_queue.rs:237-239 | exactly when nothing is left |
| `EventQueue.EventQueue.Len` | rust/crates/zk-backtest-rs/src/event_queue.rs:242-244 | the number of events left |
| `EventQueue.Conservation` | rust/crates/zk-backtest-rs/src/event_queue.rs:161-244 | in every run of one priority queue each event that went in came out or is still there, once |
| `EventQueue.PopsInOrder` | rust/crates/zk-backtest-rs/src/event_queue.rs:176-219 | popped times never decrease if nothing is added in the past |
| `EventQueue.AlwaysTieOrdered` | rust/crates/zk-backtest-rs/src/event_queue.rs:91-95 | sorting by time alone leaves a stream tie-ordered, however ties fall, exactly when simultaneous events have equal priority |
| `EventQueue.AlwaysInOrder` | rust/crates/zk-backtest-rs/src/event_queue.rs:91-95 | a stream always comes out by time and priority exactly when its simultaneous events have equal priority |
| `EventQueue.TimerFirst` | rust/crates/zk-backtest-rs/src/event_queue.rs:91-95 | counterexample: a tick and a timer at the same time, sorted timer first, pop the timer first |
| `EventQueue.AdvanceRemoves` | rust/crates/zk-backtest-rs/src/event_queue.rs:105-120 | advancing removes the head, dummy slot or not |
| `SemanticPipeline.ExactlyOnce` | rust/crates/zk-gw-svc/src/semantic_pipeline.rs:87-105 | each trade id is published exactly once, by its first entry |
| `SemanticPipeline.OthersPass` | rust/crates/zk-gw-svc/src/semantic_pipeline.rs:87-105 | everything without a trade id passes through in order |
| `SemanticPipeline.CutsDontMatter` | rust/crates/zk-gw-svc/src/semantic_pipeline.rs:87-112 | over all reports the result depends only on the concatenated entries |
| `SemanticPipeline.SemanticPipeline.ProcessOrderReport` | rust/crates/zk-gw-svc/src/semantic_pipeline.rs:87-112 | the fresh entries, or nothing if none is left |
| `SemanticPipeline.SemanticPipeline.ProcessPosition` | rust/crates/zk-gw-svc/src/semantic_pipeline.rs:138-205 | the facts, then a zero for each key remembered and gone |
| `SemanticPipeline.SemanticPipeline.Reset` | rust/crates/zk-gw-svc/src/semantic_pipeline.rs:208-211 | nothing is remembered |
| `SemanticPipeline.ViewIsLatest` | rust/crates/zk-gw-svc/src/semantic_pipeline.rs:138-205 | over any run of snapshots without ":" in names the consumer sees the latest one, absent positions at zero |
| `SemanticPipeline.SnapshotIsSeen` | rust/crates/zk-gw-svc/src/semantic_pipeline.rs:138-205 | whatever the names: a position is seen as the snapshot has it exactly when no zero is reported for it although it is there, and one is if it was seen and is gone |
| `SemanticPipeline.VanishingIsSeen` | rust/crates/zk-gw-svc/src/semantic_pipeline.rs:169-190 | in any state, whatever else a snapshot holds: a remembered position that is gone from it is seen as zero exactly when its instrument has no ":" in its name |
| `PositionKeys.KeyRoundTrip` | rust/crates/zk-gw-svc/src/semantic_pipeline.rs:144-182 | a key reads back as its position exactly when the instrument has no ":" |
| `PositionKeys.ColonMisread` | rust/crates/zk-gw-svc/src/semantic_pipeline.rs:177-182 | counterexample: side 1 of A:B reads back as side 0 of A |
| `PositionKeys.ParseFormat` | rust/crates/zk-gw-svc/src/semantic_pipeline.rs:181-181 | every 32-bit side reads back as itself |
| `GwExecutor.OrdersStayInOrder` | rust/crates/zk-gw-svc/src/gw_executor.rs:97-250 | in every interleaving the actions of one order reach the venue in accepted order, one at a time |
| `GwExecutor.NothingLost` | rust/crates/zk-gw-svc/src/gw_executor.rs:97-250 | each dispatched action is carried out, reported as rejected or pending, exactly once |
| `LiveEngine.CoalesceTicks` | rust/crates/zk-engine-rs/src/engine_event.rs:175-194 | all but ticks that a later one of the same key replaces |
| `LiveEngine.CutsDontMatter` | rust/crates/zk-engine-rs/src/live_engine.rs:188-286 | everything but ticks is dispatched as a function of arrival order alone, and the engine ends in the same state |
| `LiveEngine.OmsAlwaysDelivered` | rust/crates/zk-engine-rs/src/live_engine.rs:229-239 | every order, balance and position update before the first stop is dispatched once, in order, paused or not |
| `LiveEngine.SilentWhilePaused` | rust/crates/zk-engine-rs/src/live_engine.rs:188-286 | however the channel is cut and wherever a pause arrives, no market or timer event up to the next resume is dispatched |
| `LiveEngine.RunPicks` | rust/crates/zk-engine-rs/src/live_engine.rs:188-286 | a run dispatches exactly the events at dispatched positions, each once, in order of arrival |
| `LiveEngine.RunThrough` | rust/crates/zk-engine-rs/src/live_engine.rs:188-286 | however the channel is cut, the dispatched positions are those that get through one by one, ticks replaced in their batch aside |
| `LiveEngine.LastTickDelivered` | rust/crates/zk-engine-rs/src/engine_event.rs:175-194 | a batch delivers exactly the last tick of each key, and only if the engine is open when it gets there |
| `LiveEngine.LostTick` | rust/crates/zk-engine-rs/src/engine_event.rs:175-194 | counterexample: of two ticks around a pause the first is delivered one by one, none in one batch |
| `LiveEngine.OpenThroughout` | rust/crates/zk-engine-rs/src/live_engine.rs:212-239 | in a control-free unpaused batch it always is |
| `LiveEngine.RunBatch` | rust/crates/zk-engine-rs/src/live_engine.rs:202-268 | one batch: dispatched events, pause state, decision count and published lifecycle as specified |
| `LiveEngine.RunAll` | rust/crates/zk-engine-rs/src/live_engine.rs:188-286 | batches up to a stop or the end of the channel |
| `LiveEngine.ShownIsSettled` | rust/crates/zk-engine-rs/src/live_engine.rs:288-311 | an engine that shows whether it is paused goes on doing so |
| `LiveEngine.LiveEngine.Run` | rust/crates/zk-engine-rs/src/live_engine.rs:188-286 | the whole loop; decision_seq counts the dispatched events the strategy acted on; a lifecycle is published per batch; ends Stopped |
| `Config.CanonicalForm` | rust/crates/zk-infra-rs/src/config_mgmt.rs:83-98 | two documents have the same sorted tree exactly when they are equal up to the order of entries |
| `Config.SortKeepsMeaning` | rust/crates/zk-infra-rs/src/config_mgmt.rs:88-98 | sorting changes nothing but the order |
| `ConfigDiff.DiffConfigs` | rust/crates/zk-infra-rs/src/config_mgmt.rs:131-173 | applying the differences to the old value yields the new one; each is a real one; none exactly when the values are equal |
| `ConfigDiff.EmptyIffEqual` | rust/crates/zk-infra-rs/src/config_mgmt.rs:131-135 | no differences exactly when equal |
| `ConfigDiff.TextIsUnique` | rust/crates/zk-infra-rs/src/config_mgmt.rs:142-142 | the text of a path stands for it alone exactly when it is empty or one key without "/": every nested field shares its text with a top-level one |
| `ConfigDiff.RenderInjective` | rust/crates/zk-infra-rs/src/config_mgmt.rs:142-142 | paths of slash-free keys can be told apart by their text |
| `ConfigDiff.SameText` | rust/crates/zk-infra-rs/src/config_mgmt.rs:142-142 | counterexample: a nested and a top-level field with the same text |
| `ConfigDiff.ClassifyDrift` | rust/crates/zk-infra-rs/src/config_mgmt.rs:181-204 | no drift exactly without differences; restart exactly when some changed field may not be reloaded |
| `ConfigDiff.ClassifyField` | rust/crates/zk-infra-rs/src/config_mgmt.rs:187-194 | the first descriptor decides; unknown fields and secrets need a restart |
| `TokenBucket.RunKeepsOk` | venue-integrations/ibkr/ibkr/rate_limiter.py:24-48 | in every run tokens stay between zero and the burst |
| `TokenBucket.WindowBound` | venue-integrations/ibkr/ibkr/rate_limiter.py:16-48 | in any window of any run at most burst + rate * length is handed out |
| `TokenBucket.WaitSuffices` | venue-integrations/ibkr/ibkr/rate_limiter.py:30-40 | left alone for the computed wait, the tokens are there exactly when the burst allows that many |
| `TokenBucket.TooMuchForever` | venue-integrations/ibkr/ibkr/rate_limiter.py:30-48 | in any run, an attempt to take more than the burst is refused |
| `TokenBucket.BlockedForever` | venue-integrations/ibkr/ibkr/rate_limiter.py:30-40 | so a blocking call for more than the burst is never granted, whoever else is at it |
| `TokenBucket.BlockIsRun` | venue-integrations/ibkr/ibkr/rate_limiter.py:30-40 | a blocking call is a series of attempts up to the granted one, so the window bound covers it |
| `TokenBucket.WaitsArePositive` | venue-integrations/ibkr/ibkr/rate_limiter.py:36-39 | a refused call always asks to sleep for some time |
| `TokenBucket.AloneInTwo` | venue-integrations/ibkr/ibkr/rate_limiter.py:30-40 | with nobody else at it, a call refused at first is granted on its second turn exactly when the burst allows that many |
| `TokenBucket.RateLimiter.RefillAt` | venue-integrations/ibkr/ibkr/rate_limiter.py:24-28 | tokens grow by rate times elapsed time, up to the burst |
| `TokenBucket.RateLimiter.TryAcquire` | venue-integrations/ibkr/ibkr/rate_limiter.py:42-48 | takes the tokens exactly when there are enough after refilling; else only refills |
| `TokenBucket.RateLimiter.Acquire` | venue-integrations/ibkr/ibkr/rate_limiter.py:30-40 | granted at the first turn with enough tokens, whatever others do in between; the wait asked for after each refused turn |
| `TokenBucket.NewLimiter` | venue-integrations/ibkr/ibkr/rate_limiter.py:16-22 | refuses a rate that is not positive; the default burst is the rate rounded down, at least one |

## Left out

- Integer overflow, f64 rounding, wall-clock stamps, logging and metrics: amounts are reals, ids and times unbounded integers.
- Cron parsing and calendar arithmetic: any strict-successor function.
- The order of ties in the heap and of keys in hash maps: any order.
- The action lists the order core returns (publish, persist, send), external orders, the keeping and expiry of buffered reports, and the eviction of closed orders.
- Exchange re-seeding and reconciliation of positions (`rust/crates/zk-oms-rs/src/position_mgr.rs:214-360`), and short positions after a sign flip.
- The account-keyed lookups of the string-keyed configuration, which repeat the gateway-keyed ones.
- Secret redaction, the text of normalised JSON and its hash.
- Average prices, fees and the text of order updates.
- Instrument type inference and balances in the gateway pipeline.
- Strategy callbacks on pause and resume, latency figures, and what snapshots of the engine hold besides the lifecycle; Pausing and Resuming, which no snapshot shows.
- Slow subscribers that miss discovery events.
- The arms of timer requests that only build errors beyond the malformed and never-firing cases.
- Storage, messaging and REST clients, bootstrap, service mains and code generation.
- GwExecutor.OrdersStayInOrder: the pool is modelled as steps on values, not as channels and tasks; at least one shard is assumed.
- TokenBucket.RateLimiter.Acquire: when it is scheduled, and what others do in between, is a parameter; counts are not negative.
- SemanticPipeline.ViewIsLatest: instruments without ':' in their names, because the keys of others do not read back; for any names SnapshotIsSeen and VanishingIsSeen say exactly what is seen.
- LiveEngine.LiveEngine.Run: the strategy is a function of the events dispatched to it.
- OmsCore.OmsCore.ProcessOrderReport: reports of external orders are not modelled; which buffered reports are replayed is a parameter.
- OmsRuns.RunKeepsBooks: trades are not negative, and an order of neither side, which is never sent, is not traded.
- OmsHolds.RunKeepsHolds: amounts, prices and trades are not negative, and no order has id zero.
- OmsCore.OmsCore.CheckBalances: instrument codes without a trading config are not modelled, because construction fills in defaults.
