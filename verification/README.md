# sector-alpha simulation core, modelled in Dafny

This project models the simulation core of the space-economy game
sector-alpha:

- **Trade negotiation and reservation between ships and facilities**
  (`src/utils/trading.ts`, module `Trading`):
  - whether a facility takes a request;
  - reserving budget and storage under one shared trade id;
  - sizing and queueing a buy-here/sell-there run, rolling back the
    buyer's reservations when the seller refuses;
  - sending a ship home with its cargo;
  - settling the money of a completed trade.
- **The trade action a ship executes** (`src/systems/orderExecuting/trade.ts`,
  module `TradeAction`): flying to the target, handing the goods over
  against the reservations, and settling.
- **The facility economy engine** (`src/economy/factility.ts`, module
  `Facilities`):
  - offers derived from production, consumption and stock;
  - the recursive production cost;
  - acceptance and reservation;
  - a transaction log capped at 100 entries;
  - module aggregation;
  - the one-percent price nudge with its floors.
- **Its pure helpers**:
  - `src/economy/utils.ts` (`EconomyUtils`): planned budget, ability to
    produce, most profitable partner, closest asteroid;
  - `src/archetypes/facilityModule.ts` (`FacilityModules`): the module
    table and module creation.
- **The order execution engine of the core revision**
  (`core/systems/orderExecuting/orderExecuting.ts`, `OrderExecuting`):
  - only the head action of the head order runs;
  - three removal hooks clean up after a removed entity.
- **Small state machines and helpers**:
  - the drive (`core/components/drive.ts`, `Drive`);
  - the mining target (`src/components/mining.ts`, `Mining`);
  - the order constructors (`src/components/orders.ts`, `Orders`);
  - hexagonal cube coordinates (`src/components/hecsPosition.ts`, `Hecs`).

## How the model is built

- **Ledgers.** The storage and budget ledgers live in files that are not
  part of this model. `Ledger` specifies them abstractly:
  - a list of reservations `(id, amount, tradeId)`;
  - what is available is the raw total minus what is reserved;
  - reserving beyond what is available fails;
  - releasing an id that is not held fails with `AllocationNotFound`.
- **Shared vocabulary.** `Common` holds the commodity enumeration (the
  eight commodities of the facility-module table), results
  and errors, a stable ascending `sortBy` (the trading utilities import it from
  `@fxts/core`, the facility and economy utilities from lodash), and `limitMin`/`limitMax`.
- **Exceptions and failed lookups.** A thrown exception becomes an `Err`
  of `Result`. A property read through `null` becomes `NullReference`. A
  failed `getOrThrow` becomes `EntityNotFound`, and a failed
  `requireComponents` becomes `MissingComponent`.
- **Mutation over the entity map.** Trading code that mutates the world
  (`allocate`, `tradeCommodity`, `returnToFacility`, `acceptTrade` and the
  trade action) is written as methods on a `Trading.Sim` object holding
  `entities: map<EntityId, Entity>`.
  - Each method is proved equal to a pure function of the old entities,
    which returns an `Outcome`: the result together with the entities
    after the call.
  - Lemmas about those functions state what the source promises.
- **Classes.** `Facility`, `Drive`, `Mining`, `Orders`, `FacilityModule`
  and `OrderExecutingSystem` are classes whose methods update their
  fields.
- **Intermediate writes kept.** A step that fails after an earlier one
  succeeded keeps the earlier write, as in the source. For example,
  `allocate` decrements the offer before reserving, and a rollback in
  `tradeCommodity` does not restore that decrement.
- **Revisions.** The `src/` and `core/` revisions of the repository
  disagree on shapes:
  - `src` orders carry no actions;
  - the `src` trading `isTradeAccepted` has no owner exemption for a
    same-kind request, while the facility's does.

  Each file is modelled against its own text, so `Trading.IsTradeAccepted`
  and `Facilities.IsTradeAccepted` differ exactly there.
- **Behaviour of the code worth noting:**
  - `cleanupAllocations` releases only reservations that carry a trade
    id, and every reservation anywhere that shares such an id. The other
    reservations of the removed entity stay.
  - `cleanupOrders` drops an order when any of its actions (not only the
    first) is a dock, deploy-builder or trade action aimed at the removed
    entity.
  - `exec` pops a completed order without calling its `onCompleted`; only
    `cleanupOrders` calls `onCompleted`.

## Model

| member | source | states |
|---|---|---|
| Common.LimitMin | src/economy/factility.ts:324-327 | `limitMin(x, b)` is never below `b` nor below `x`, and is one of them |
| Common.LimitMax | src/utils/trading.ts:471-474 | `limitMax(x, b)` is never above `b` nor above `x`, and is one of them |
| Common.FloorDiv | src/utils/trading.ts:258-266 | `Math.floor(a / b)` for a positive divisor: `b·r <= a < b·(r+1)` |
| Common.CeilDiv | src/economy/factility.ts:160-172 | `Math.ceil(a / b)` for a positive divisor: `b·(r-1) < a <= b·r` |
| Common.Single | src/utils/trading.ts:147-150 | `{...perCommodity(() => 0), [c]: q}` is `q` at `c` and 0 everywhere else |
| Common.SortBy | src/utils/trading.ts:192-212 | `sortBy` (here from `@fxts/core`; lodash's at factility.ts and economy/utils.ts behaves the same) returns a permutation of its input |
| Common.SortByIsSorted | src/utils/trading.ts:192-212 | `@fxts/core` `sortBy` output is in ascending key order |
| Common.SortByStable | src/utils/trading.ts:192-212 | `@fxts/core` `sortBy` is stable: elements with equal keys keep their input order |
| Ledger.NewBudgetAllocation | src/utils/trading.ts:136-143 | a budget reservation fails (`NegativeQuantity` / `InsufficientFunds`) iff the amount is negative or above the available money; otherwise it is appended with the given trade id, money is unchanged, available drops by the amount, the ledger stays valid and the id is fresh |
| Ledger.NewStorageAllocation | src/utils/trading.ts:144-155 | a storage reservation fails iff malformed or it does not fit; otherwise it is appended, stock is unchanged, available wares (outgoing) or space (incoming) drop by exactly its amount, validity kept |
| Ledger.ReleaseBudgetAllocation | src/utils/trading.ts:89-92 | releasing fails with `AllocationNotFound` iff the id is not held; otherwise that reservation is removed, money is unchanged, available grows by its amount, and every other reservation stays |
| Ledger.ReleaseStorageAllocation | src/utils/trading.ts:319-321 | as above for storage: wares or space come back by exactly the released amount |
| Ledger.Transfer | src/systems/orderExecuting/trade.ts:17-22 | `transfer` fails iff the quantity is negative, the sender lacks it, or (unless settling) the receiver lacks the space; otherwise exactly `q` of `c` moves, reservations unchanged, validity kept |
| Ledger.TransferMoney | src/utils/trading.ts:93 | `transferMoney` takes the amount from one budget and the total is conserved |
| Ledger.BudgetReleaseUndoesNew | src/utils/trading.ts:316-318 | releasing a budget reservation just made restores the reservations and the available money |
| Ledger.StorageReleaseUndoesNew | src/utils/trading.ts:319-321 | releasing a storage reservation just made restores the reservations and the stock |
| Ledger.BudgetDoubleReleaseFails | src/utils/trading.ts:89-92 | a reservation can be released only once |
| Ledger.StorageDoubleReleaseFails | src/systems/orderExecuting/trade.ts:13-15 | a storage reservation can be released only once |
| Ledger.WithoutTrades | core/systems/orderExecuting/orderExecuting.ts:62-94 | dropping the reservations of some trades keeps exactly the others |
| Ledger.WithoutTradesKeepsStorage | core/systems/orderExecuting/orderExecuting.ts:66-77 | dropping trades' reservations keeps a storage ledger valid |
| Ledger.WithoutTradesKeepsBudget | core/systems/orderExecuting/orderExecuting.ts:79-89 | dropping trades' reservations keeps a budget ledger valid |
| TradeTypes.BuyOffered | src/utils/trading.ts:195-201 | the filter keeps exactly the commodities with a buy offer of positive quantity |
| TradeTypes.SellOffered | src/utils/trading.ts:220-226 | the filter keeps exactly the commodities with a sell offer of positive quantity |
| TradeTypes.NeededByStock | src/utils/trading.ts:190-213 | `getNeededCommodities` is exactly the live buy offers, each once, sorted by available stock |
| TradeTypes.CommoditiesForSell | src/utils/trading.ts:215-237 | `getCommoditiesForSell` is exactly the live sell offers, each once, sorted by available stock; the facility's method of the same name (`src/economy/factility.ts`, lines 376-396) returns the same list |
| Orders.TradeOrderOf | src/components/orders.ts:31-40 | `tradeOrder` throws `NegativeQuantity` iff the quantity is at most 0; otherwise it is a trade order with the given offer and target |
| Orders.MineOrderOf | src/components/orders.ts:42-47 | `mineOrder` keeps both targets and is a mine order |
| Orders.Orders.constructor | src/components/orders.ts:49-51 | a new order queue is empty |
| Drive.Drive.constructor | core/components/drive.ts:45-55 | `createDrive`: speeds as given, rotary in radians, speed 0, maneuvering, no target, not reached |
| Drive.Drive.StartCruise | core/components/drive.ts:57-59 | state becomes warming; only the state may change |
| Drive.Drive.StopCruise | core/components/drive.ts:61-64 | state maneuver and current speed = maneuver speed; nothing else changes |
| Drive.Drive.SetTarget | core/components/drive.ts:66-74 | retargeting to the current target changes nothing; null or another target sets it, maneuvers and clears `targetReached`; the speeds are never touched |
| Drive.Drive.ClearTarget | core/components/drive.ts:76-79 | target null, maneuvering, `targetReached` true |
| Hecs.Transform | src/components/hecsPosition.ts:4-11 | every direction vector sums to 0 |
| Hecs.Move | src/components/hecsPosition.ts:17-22 | `hecsMove` keeps the coordinate sum, so it stays on the plane |
| Hecs.MoveThenBack | src/components/hecsPosition.ts:4-11 | opposite directions cancel |
| Hecs.DistanceSymmetricAndZero | src/components/hecsPosition.ts:24-26 | `hecsDistance` is symmetric and 0 on equal cells |
| Hecs.DistanceOfStep | src/components/hecsPosition.ts:4-26 | one step in any direction is at distance 1 |
| Hecs.DistanceOnPlane | src/components/hecsPosition.ts:24-26 | on the plane the distance is the largest coordinate difference |
| Hecs.JsRound | src/components/hecsPosition.ts:29 | `Math.round` is within half a unit, halves rounded up |
| Hecs.Round | src/components/hecsPosition.ts:28-41 | `hecsRound` lands on the plane, keeping two rounded coordinates |
| Hecs.RoundOfCell | src/components/hecsPosition.ts:28-41 | `hecsRound` is the identity on integer cells of the plane |
| Mining.Mining.constructor | src/components/mining.ts:15-24 | efficiency as given, empty buffer, no asteroid and no id |
| Mining.Mining.SetAsteroid | src/components/mining.ts:34-37 | asteroid and its id are set together; efficiency untouched |
| Mining.Mining.ClearAsteroid | src/components/mining.ts:39-42 | asteroid and id both cleared |
| Mining.Mining.Load | src/components/mining.ts:26-32 | a missing or 0 id loads nothing; otherwise the asteroid with that id is found, or the cast fails and nothing changes; asteroid/id consistency is kept |
| FacilityModules.Production | src/archetypes/facilityModule.ts:22-24 | a partial production table reads as 0 for commodities it omits |
| FacilityModules.ModuleOf | src/archetypes/facilityModule.ts:18-31 | parent and name as given; production iff a table is given; storage bonus iff storage is truthy |
| FacilityModules.FacilityModule.constructor | src/archetypes/facilityModule.ts:18-31 | `createFacilityModule` builds exactly that record |
| FacilityModules.WithParent | src/archetypes/facilityModule.ts:33-38 | a template's input plus the parent |
| FacilityModules.Instantiate | src/archetypes/facilityModule.ts:33-38 | a template applied to a parent equals `createFacilityModule` on the template fields plus that parent |
| FacilityModules.TableIsOneSided | src/archetypes/facilityModule.ts:40-99 | every table entry's commodity is either consumed or produced, never both |
| FacilityModules.RefineryAndContainer | src/archetypes/facilityModule.ts:56-98 | the refinery's exact table; the small container has no production and a 1000 bonus |
| EconomyUtils.PlannedBudgetIgnoresSell | src/economy/utils.ts:90-96 | sell offers contribute nothing to the planned budget |
| EconomyUtils.PlannedBudgetNonNegative | src/economy/utils.ts:90-96 | with non-negative quantities and prices the planned budget is non-negative |
| EconomyUtils.CanCoverAll | src/economy/utils.ts:69-82 | the `every` over commodities holds iff each commodity's condition holds |
| EconomyUtils.IsAbleToProduce | src/economy/utils.ts:65-83 | a module can run iff every consumption is in stock and every product is below quota |
| EconomyUtils.Candidates | src/economy/utils.ts:28-39 | the candidates are exactly the facilities with the opposite offer kind and positive quantity, scored by profit |
| EconomyUtils.NearBestList | src/economy/utils.ts:47-50 | keeps exactly the candidates within 95% of the best profit |
| EconomyUtils.RankingHead | src/economy/utils.ts:28-45 | the ranking's head has the best profit, positive iff some candidate's is |
| EconomyUtils.FarthestNear | src/economy/utils.ts:47-52 | the pick is the farthest of the near-best candidates |
| EconomyUtils.FacilityWithMostProfit | src/economy/utils.ts:14-53 | null iff no candidate has positive profit; else a near-best candidate at maximal distance |
| EconomyUtils.ClosestMineable | src/economy/utils.ts:55-63 | none iff every asteroid is mined; else an unmined one at minimal distance |
| Facilities.OfferedQuantity | src/economy/factility.ts:175-205 | the four cases of `getOfferedQuantity`; when planned purchases exceed the available money the shortage is scaled to `floor(available / required × shortage)` (stated as `required·q <= available·shortage < required·(q+1)`) |
| Facilities.ScaledShortage | src/economy/factility.ts:201-204 | `Math.floor(available / required × shortage)`: `required·q <= available·shortage < required·(q+1)`, hence never positive and never past the full shortage |
| Facilities.OfferFor | src/economy/factility.ts:89-98 | sell iff offered quantity > 0, quantity is its magnitude, previous price kept (else the starting price) |
| Facilities.OffersFor | src/economy/factility.ts:88-100 | `createOffers` publishes one such offer per commodity |
| Facilities.OfferKindFollowsStock | src/economy/factility.ts:175-199 | an unused commodity is sold iff some is available; a net-consumed one at or below quota is bought |
| Facilities.FirstProducer | src/economy/factility.ts:152-154 | `modules.find`: the first module producing the commodity, or none |
| Facilities.ProductionCost | src/economy/factility.ts:151-173 | a commodity nobody produces costs its offer price, and the only failure is `StackOverflow`; when it fails is stated by `ProductionCostFailsOnLoop` |
| Facilities.ProductionCostFailsOnLoop | src/economy/factility.ts:151-173 | the cost fails (the engine recurses without end) exactly when some walk from the commodity along "its first producing module consumes a nonzero amount of" comes back to a commodity already on the walk |
| Facilities.CostSumFails | src/economy/factility.ts:160-172 | the input sum fails exactly when some input consumed at a nonzero amount has a failing cost |
| Facilities.ProductionCostNonNegative | src/economy/factility.ts:151-173 | with non-negative prices and consumptions every computed cost is non-negative |
| Facilities.IsTradeAccepted | src/economy/factility.ts:207-243 | negative ask throws; same kind from a foreign faction throws, the owner exempt; buy iff (owner or price ≥ ask) and stock; sell iff (owner or price ≤ bid), money and space |
| Facilities.Quantities | src/economy/factility.ts:290-302 | a traded quantity is recorded for every commodity |
| Facilities.Changes | src/economy/factility.ts:303-306 | a demand change is recorded for every commodity |
| Facilities.DemandChange | src/economy/factility.ts:290-306 | each commodity's recorded quantity is what was traded against its current offer kind since the last adjustment, and its change is that quantity less the one recorded at the last adjustment |
| Facilities.PriceStep | src/economy/factility.ts:324-327 | the nudge is `floor(price / 100)` for a price of 100 or more (`100·d <= price < 100·(d+1)`), and 1 below 200 |
| Facilities.SignedStep | src/economy/factility.ts:328-333 | a sell price goes down iff demand did not grow; a buy price goes up iff it did not |
| Facilities.AdjustOne | src/economy/factility.ts:308-339 | skipped offers keep their price; a buy lands at `limitMin(price ± step, 1)`; a sell lands at `limitMin(price ± step, cost)` and fails exactly when its production cost cannot be computed |
| Facilities.AdjustFromKeeps | src/economy/factility.ts:308-339 | the adjustment loop keeps every kind and quantity, and leaves commodities it does not visit or skips unchanged |
| Facilities.AdjustFromPrice | src/economy/factility.ts:308-339 | for one visited, unskipped commodity of a loop that did not fail: a buy ends at `limitMin(price ± step, 1)`, a sell at `limitMin(price ± step, cost)` with the cost taken on `OffersAt` |
| Facilities.AdjustFromEffect | src/economy/factility.ts:308-339 | over all commodities: kinds and quantities kept, skipped ones unchanged, a visited buy lands at `limitMin(price ± step, 1)`, a visited sell at `limitMin(price ± step, cost)` where the cost is computed on the offers the loop holds when it reaches that commodity (`OffersAt`) |
| Facilities.NeededCommodities | src/economy/factility.ts:347-374 | exactly the live buy offers, each once, sorted by score |
| Facilities.Capped | src/economy/factility.ts:261-267 | the log keeps its newest 100 entries, newest last: a log of at most 100 is kept whole, a longer one loses exactly its oldest entry |
| Facilities.Combined | src/economy/factility.ts:273-280 | production tables add commodity by commodity |
| Facilities.Facility.constructor | src/economy/factility.ts:57-77 | no modules, empty log, zero production, first offers published |
| Facilities.Facility.CreateOffers | src/economy/factility.ts:88-100 | offers become `OffersFor` the current state |
| Facilities.Facility.Allocate | src/economy/factility.ts:105-137 | refused or rejected by `isTradeAccepted`: nothing changes; accepted but failing on a ledger step (a negative quantity or price): storage unchanged and the budget either unchanged or holding the sell's budget reservation made before the failure; sell reserves price×quantity and incoming space; buy only outgoing wares, no budget |
| Facilities.Facility.AcceptTrade | src/economy/factility.ts:245-268 | for a positive price exactly the released reservation's amount moves between budgets, the facility keeps its invariant and both budgets stay valid, and the side whose reservation is not released keeps its reservations; the log gains the entry, capped at 100 |
| Facilities.Facility.AddProduction | src/economy/factility.ts:274-279 | each commodity's production and consumption grow by the module's |
| Facilities.Facility.AddModule | src/economy/factility.ts:270-287 | module appended, production combined, capacity raised by the bonus, offers republished |
| Facilities.Facility.AdjustPrices | src/economy/factility.ts:289-345 | offers become the fold of `AdjustOne`; on success the adjustment time and quantities are recorded |
| Trading.IsTradeAccepted | src/utils/trading.ts:34-79 | negative ask, same kind or excess quantity throw; buy iff (own faction or price ≥ ask) and stock; sell iff (own faction or price ≤ bid), money and space |
| Trading.AcceptedFits | src/utils/trading.ts:61-76 | an accepted request fits the facility's storage, and a sell its budget |
| Trading.TradeIdOf | src/utils/trading.ts:127-129 | the trade id is made of facility, initiator, kind and time |
| Trading.Decremented | src/utils/trading.ts:125 | the offer shrinks by exactly the requested quantity; nothing else changes |
| Trading.StorageNeed | src/utils/trading.ts:144-183 | incoming for a sell, outgoing for a buy, the requested quantity of that commodity only |
| Trading.Allocate | src/utils/trading.ts:120-188 | the method computes `AllocateIn` and keeps the world valid |
| Trading.AllocateKeepsWorld | src/utils/trading.ts:120-188 | `allocate` keeps every ledger valid and touches only the facility and the payer |
| Trading.AllocateShape | src/utils/trading.ts:120-188 | `allocate` changes no owner, order, docking or commander |
| Trading.AllocateReservations | src/utils/trading.ts:127-184 | on success: one storage reservation of the right kind and quantity; a budget reservation of price×quantity iff the price is nonzero; both share the trade id |
| Trading.AllocateRefusal | src/utils/trading.ts:124-187 | refused or erroneous: nothing changes; accepted: the offer is decremented |
| Trading.AllocateSucceeds | src/utils/trading.ts:124-184 | an accepted request whose payer can afford it is reserved |
| Trading.TradeQuantity | src/utils/trading.ts:257-266 | the run quantity respects all four limits; `NaN` exactly at price 0 with budget 0 |
| Trading.TradeQuantityIsGreatest | src/utils/trading.ts:257-266 | it is the largest such whole number |
| Trading.Approach | src/utils/trading.ts:327-332 | move and dock steps only when not already docked at the target |
| Trading.RunInput | src/utils/trading.ts:272-300 | the requests of a run: quantity, faction, holder's budget, price waived at the commander |
| Trading.NotANumberRun | src/utils/trading.ts:258-266 | a run whose quantity is `NaN` never reports success |
| Trading.RunSteps | src/utils/trading.ts:325-368 | the run's steps: approach, buy with the seller's ids, move, dock, sell with the buyer's ids |
| Trading.TradeCommodity | src/utils/trading.ts:243-376 | the method computes `TradeCommodityIn` and keeps the world valid |
| Trading.ReserveRun | src/utils/trading.ts:309-375 | the reserving part computes `ReserveRunIn` |
| Trading.Rollback | src/utils/trading.ts:315-323 | the rollback computes `RollbackIn` |
| Trading.TradeCommodityKeepsWorld | src/utils/trading.ts:243-376 | `tradeCommodity` keeps every ledger valid and no entity is added or lost |
| Trading.RollbackRestores | src/utils/trading.ts:315-323 | releasing the buyer's fresh reservations restores its ledgers |
| Trading.AllocateThenRollback | src/utils/trading.ts:309-323 | reserve then roll back gives the buyer's ledgers back; only its offer stays decremented |
| Trading.ReserveRunFalse | src/utils/trading.ts:309-323 | a failed run reserved nothing |
| Trading.TradeCommodityFalseReservesNothing | src/utils/trading.ts:268-323 | `tradeCommodity` returning false leaves every ledger as it was, at most the buyer's offer shrunk |
| Trading.ReserveRunOrders | src/utils/trading.ts:325-375 | a successful run appends exactly one group |
| Trading.TradeCommodityOrders | src/utils/trading.ts:325-375 | true ⇒ exactly one trade group of the run's shape appended; otherwise orders untouched |
| Trading.HomeInput | src/utils/trading.ts:468-480 | a free sale of at most what the ship carries and the commander takes |
| Trading.HomeStepKeepsWorld | src/utils/trading.ts:482-503 | one sale home keeps the world valid and at most appends a sale of that commodity |
| Trading.ReturnFrom | src/utils/trading.ts:461-504 | the ship's orders are not touched while the sales are reserved |
| Trading.ReturnFromKeepsWorld | src/utils/trading.ts:461-504 | the sales home keep every ledger valid, every shape and every budget |
| Trading.ReturnFromSteps | src/utils/trading.ts:461-504 | only free sales to the commander are appended, at most one per commodity that goes home |
| Trading.AllocateFreeKeepsBudgets | src/utils/trading.ts:131-135 | a free reservation touches no budget |
| Trading.QueueGroupKeeps | src/utils/trading.ts:505-510 | pushing a group changes no ledger and no other entity |
| Trading.EnqueueEffect | src/utils/trading.ts:505-510 | the group is pushed iff the steps exist and are non-empty |
| Trading.ReturnToFacility | src/utils/trading.ts:440-511 | the method computes `ReturnToFacilityIn` and keeps the world valid |
| Trading.ReturnHome | src/utils/trading.ts:454-510 | the loop plus the push compute `ReturnHomeIn` |
| Trading.PushGroup | src/utils/trading.ts:505-510 | the push computes `Enqueue` |
| Trading.SellAllHome | src/utils/trading.ts:461-504 | the loop computes `ReturnFrom` |
| Trading.SellHome | src/utils/trading.ts:467-503 | one iteration computes `HomeStep` |
| Trading.ReturnHomeEffect | src/utils/trading.ts:454-510 | ledgers valid, budgets kept, at most one group queued: move and dock first when not docked there, then only free sales home |
| Trading.ReturnToFacilityEffect | src/utils/trading.ts:440-511 | missing commander or non-trading commander: an error and nothing queued; otherwise as `ReturnHomeEffect` |
| Trading.PayInEffect | src/utils/trading.ts:89-99 | exactly the released amount moves from payer to payee; fails, changing nothing, without the reservation |
| Trading.AcceptTradeEffect | src/utils/trading.ts:81-101 | money moves only for a positive price, a truthy budget entity and a truthy buyer reservation, from buyer to seller |
| Trading.AcceptTrade | src/utils/trading.ts:81-101 | the method computes `AcceptTradeIn` and keeps the world valid |
| Trading.Pay | src/utils/trading.ts:89-99 | release then transfer compute `PayIn` |
| TradeAction.TransferInEffect | src/systems/orderExecuting/trade.ts:17-22 | exactly `q` moves between the two storages, or it fails changing nothing |
| TradeAction.DeliverKeeps | src/systems/orderExecuting/trade.ts:12-33 | the hand-over keeps every ledger valid and touches only the two storages |
| TradeAction.DeliverRefusal | src/systems/orderExecuting/trade.ts:12-33 | no allocation record or no settled reservation: it fails, changing nothing |
| TradeAction.DeliverReleases | src/systems/orderExecuting/trade.ts:13-15 | after a hand-over the target no longer holds the settled reservation |
| TradeAction.DeliverMovesSale | src/systems/orderExecuting/trade.ts:12-22 | a sale moves exactly the quantity from ship to target |
| TradeAction.DeliverMovesPurchase | src/systems/orderExecuting/trade.ts:23-33 | a purchase moves exactly the quantity from target to ship |
| TradeAction.TradeActionEffect | src/systems/orderExecuting/trade.ts:11-39 | not reached: nothing changes and the step is not done; reached: hand-over then `acceptTrade` once, done |
| TradeAction.TradeStep | src/systems/orderExecuting/trade.ts:5-40 | the drive is retargeted to the order's target; the entities follow `TradeActionIn` |
| TradeAction.Deliver | src/systems/orderExecuting/trade.ts:12-33 | the method computes `DeliverIn` |
| TradeAction.Move | src/systems/orderExecuting/trade.ts:17-22 | the method computes `TransferIn` |
| OrderExecuting.ActionFnOf | core/systems/orderExecuting/orderExecuting.ts:138-150 | an unknown action type runs `holdPosition`, a known one its own function |
| OrderExecuting.ExecEffect | core/systems/orderExecuting/orderExecuting.ts:169-190 | only the head order's head action runs; the action pops iff it finished; the order pops iff its actions are then empty and it completes (patrol/hold never, attack/follow when their damage target is set and gone, unknown types always) |
| OrderExecuting.OrderExecutingSystem.Exec | core/systems/orderExecuting/orderExecuting.ts:169-190 | the loop over orderable entities computes `ExecIn` |
| OrderExecuting.TradesOf | core/systems/orderExecuting/orderExecuting.ts:63-66 | every trade id on the removed entity's budget or storage is collected |
| OrderExecuting.CleanupAllocationsEffect | core/systems/orderExecuting/orderExecuting.ts:62-94 | every reservation of those trades is gone on every entity, every other reservation, money and stock kept, ledgers valid |
| OrderExecuting.CleanupAllocationsLeavesNoTrade | core/systems/orderExecuting/orderExecuting.ts:62-94 | no allocation with a removed entity's trade id remains anywhere |
| OrderExecuting.OrderExecutingSystem.CleanupAllocations | core/systems/orderExecuting/orderExecuting.ts:62-94 | the loop computes `CleanupAllocationsIn` |
| OrderExecuting.Unaimed | core/systems/orderExecuting/orderExecuting.ts:96-120 | keeps exactly the orders not aimed at the removed entity |
| OrderExecuting.UnaimedIsSubsequence | core/systems/orderExecuting/orderExecuting.ts:96-120 | no aimed order remains, every other order is kept, a queue without aimed orders is unchanged |
| OrderExecuting.CleanupOrdersAsWrittenKeepsAimed | core/systems/orderExecuting/orderExecuting.ts:97-118 | the splice-in-`forEach` walk leaves the second of two aimed orders queued |
| OrderExecuting.OrderExecutingSystem.CleanupOrders | core/systems/orderExecuting/orderExecuting.ts:96-120 | the corrected cleanup of the `## Findings` row (the code as written skips the order after each one it splices out): queues become `CleanupOrdersIn`; `onCompleted` fires exactly for entities whose head order is aimed and has handlers |
| OrderExecuting.CleanupChildrenIn | core/systems/orderExecuting/orderExecuting.ts:122-136 | subordinates lose their commander, their orders, and hold; children are gone; everything else unchanged |
| OrderExecuting.OrderExecutingSystem.CleanupChildren | core/systems/orderExecuting/orderExecuting.ts:122-136 | the two loops compute `CleanupChildrenIn` |
| OrderExecuting.OrderExecutingSystem.constructor | core/systems/orderExecuting/orderExecuting.ts:153-167 | hooks registered in the order allocations, orders, children |
| OrderExecuting.OrderExecutingSystem.RunRemovalHooks | core/systems/orderExecuting/orderExecuting.ts:153-167 | the hooks run in their registered order: the entities become `RunHooks` of them, and the handlers reported as fired are those of the orders hook at its turn (`FiredBy`); with the registered hooks, exactly the entities whose head order is aimed and has handlers once the trades' reservations are released |
| OrderExecuting.RegisteredFires | core/systems/orderExecuting/orderExecuting.ts:96-120 | with the constructor's hooks (allocations, orders, children) the fired handlers are exactly those of heads aimed at the removed entity after the allocation cleanup |
| OrderExecuting.RemovalLeavesNoReference | core/systems/orderExecuting/orderExecuting.ts:62-167 | with the corrected order cleanup of the `## Findings` row: after the registered hooks no reservation of the removed entity's trades, no aimed order, no subordinate and no child remain; ledgers stay valid |

## Left out

- Journal entries of `acceptTrade` (src/utils/trading.ts:103-114): bookkeeping, no economy rule.
- Order-level `exec` functions and the `onCompleted` handlers (`attackOrder`, `patrolOrder`, `followOrder`, `holdAction`, `attackOrderGroup`, `follorOrderGroup`): their files are not part of this model.
  - `Exec` assumes they leave the queue alone.
  - `CleanupOrders` reports which handlers fire but not what they do.
- The other action functions (`attackAction`, `mineAction`, `moveAction`, `teleportAction`, `dockOrder`, `deployFacilityAction`, `deployBuilderAction`, `holdPosition`): not part of this model.
  - `Exec` takes what each returned as the parameter `done`.
  - The trade action is modelled in `TradeAction`.
- `OrderExecuting.CleanupChildrenIn`: unregistering a child does not run the child's own removal hooks (the cascade); `unregister` is not part of this model.
- `moveToOrders` path finding: a planned move is one abstract `MoveTo(from, to)` step.
- The ledger and production components (storage, budget, allocation manager, compound production), `perCommodity` and `getOrThrow`: not part of this model; the ledger is specified abstractly.
- The value of `startingPrice`: declared, not known.
- Floating point is left out:
  - prices, quantities and money are integers;
  - distances are a parameter (`mathjs` `norm`);
  - the drive's and mining's speeds are reals that are never computed with;
  - `hecsToCartesian` and `getSectorPrices` are not modelled;
  - the moving system's kinematics are not modelled.
- `Facility.simulate`, `select`, `focus`: cooldown timers and UI globals.
- `Facilities.NeededCommodities`: requires a nonzero summed consumption; at 0 the source divides by zero and sorts `Infinity`/`NaN` scores, which is not modelled.
- `Facilities.Facility.AcceptTrade`: the counterparty's budget (an object in that revision) is passed in and returned as a value, not shared by reference.
- `TradeAction.TradeStep`: requires the ship and the order's target to be distinct entities, and the target to trade. Aliasing of the two storages is not modelled.
- `Trading.ReturnFrom`: its own contract only says that the ship's orders are untouched; what the sales do is in `ReturnFromKeepsWorld` and `ReturnFromSteps`.
- `Facilities.ProductionCost`: its contract gives the base case and the failure kind; the recursive formula is the body, non-negativity is `ProductionCostNonNegative` and the failure condition is `ProductionCostFailsOnLoop`. The engine sums floating-point quotients and rounds up once; the model sums integer products and divides once with `CeilDiv`.
- `OrderExecuting.CleanupAllocationsIn`: the source releases reservations while iterating over the same `allocations` collections (orderExecuting.ts:63-91). The model first collects the trade ids of the removed entity's ledgers and then releases every matching reservation, as if each loop ran over a snapshot. Whether a release made during iteration would skip the next element depends on the ledger code, which is not part of this model.
- Storage change callback: the facility builds its storage with `createOffers` as the change callback (factility.ts:73), so every storage change republishes the offers. The storage component is not part of this model. Only `Facilities.Facility.constructor` and `Facilities.Facility.AddModule` republish offers. The offers are not refreshed after `Facilities.Facility.Allocate`, `Facilities.Facility.AcceptTrade`, the reservations of `Trading.Allocate`, or the hand-over in `TradeAction.Deliver`.
- `Common.Commodity`: the eight commodities are those named in the facility-module table; the commodity list file is not part of this model. The engine's iteration order over commodities is assumed to be the alphabetical order of `AllCommodities`. Results that depend on it: the sell floors in `AdjustFrom`/`AdjustPrices` (computed on prices already moved earlier in that order), the tie order of the stable sorts in `NeededCommodities`, `NeededByStock` and `CommoditiesForSell`, and the order of the sale steps in `ReturnFrom`.

## Findings

| source | as written | input that shows it | evidently intended | confidence | as-written member | corrected member |
|---|---|---|---|---|---|---|
| core/systems/orderExecuting/orderExecuting.ts:97-118 | `cleanupOrders` splices the queue inside its own `forEach`, so the order after each removed one shifts into the visited index and is never examined | a ship whose queue is two `follow` orders both targeting the removed entity: one of them stays queued | every order aimed at the removed entity is dropped | not executed | OrderExecuting.CleanupOrdersAsWrittenKeepsAimed | OrderExecuting.UnaimedIsSubsequence |
