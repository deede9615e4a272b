/** The trade action a ship executes for a trade order: fly to the target
    and, once there, hand the goods over against the reservations made when
    the trade was agreed, then settle the money. */
module TradeAction {
  import opened Common
  import opened Ledger
  import opened TradeTypes
  import opened Orders
  import opened Trading
  import opened Drive

  /** The target's storage reservation a trade settles: the buyer's when the
      ship sells, the seller's when it buys. `None` stands for a property
      read through `null` (no allocations at all); `Some(None)` for a missing
      reservation id. */
  function SettledStorageId(offer: TransactionInput): Option<Option<nat>>
  {
    if offer.allocations.None? then None
    else if offer.kind == Sell then Some(offer.allocations.value.buyer.storage)
    else Some(offer.allocations.value.seller.storage)
  }

  /** `transfer(from storage, c, q, to storage, true)` between two entities. */
  function TransferIn(es: map<EntityId, Entity>, from: EntityId, to: EntityId, c: Commodity, q: int)
    : (out: Outcome<()>)
    requires WorldValid(es) && from in es && es[from].storage.Some? && to in es && es[to].storage.Some?
  {
    match Transfer(es[from].storage.value, c, q, es[to].storage.value, true)
    case Err(e) => Outcome(Err(e), es)
    case Ok((f, t)) => Outcome(Ok(()), es[from := es[from].(storage := Some(f))][to := es[to].(storage := Some(t))])
  }

  /** A transfer between two distinct entities keeps every ledger valid,
      touches only their storages, and moves exactly `q` of `c`: from the
      stock of `from` to the stock of `to`. It fails, changing nothing, when
      `q` is negative or `from` does not have `q` available. */
  lemma TransferInEffect(es: map<EntityId, Entity>, from: EntityId, to: EntityId, c: Commodity, q: int)
    requires WorldValid(es) && from in es && es[from].storage.Some? && to in es && es[to].storage.Some?
    requires from != to
    ensures var out := TransferIn(es, from, to, c, q);
      && WorldValid(out.entities) && out.entities.Keys == es.Keys
      && (forall k :: k in es && k != from && k != to ==> out.entities[k] == es[k])
      && out.entities[from].(storage := es[from].storage) == es[from]
      && out.entities[to].(storage := es[to].storage) == es[to]
      && out.entities[from].storage.Some? && out.entities[to].storage.Some?
      && (out.result.Err? <==> q < 0 || AvailableWares(es[from].storage.value, c) < q)
      && (out.result.Err? ==> out.entities == es)
      && out.entities[from].storage.value.allocations == es[from].storage.value.allocations
      && out.entities[to].storage.value.allocations == es[to].storage.value.allocations
      && (out.result.Ok? ==>
            && out.entities[from].storage.value.stored
               == es[from].storage.value.stored[c := es[from].storage.value.stored[c] - q]
            && out.entities[to].storage.value.stored
               == es[to].storage.value.stored[c := es[to].storage.value.stored[c] + q])
  {
    var r := Transfer(es[from].storage.value, c, q, es[to].storage.value, true);
    if r.Ok? {
      var (f, t) := r.value;
      var es1 := es[from := es[from].(storage := Some(f))];
      assert WorldValid(es1);
    }
  }

  /** The hand-over: release the target's reservation, then move the goods
      from the seller to the buyer, settling that reservation (the space or
      the wares were set aside when it was made). */
  function DeliverIn(es: map<EntityId, Entity>, ship: EntityId, target: EntityId, offer: TransactionInput)
    : (out: Outcome<()>)
    requires WorldValid(es) && ship in es && IsShip(es[ship]) && target in es && IsTrader(es[target])
    requires ship != target
  {
    match SettledStorageId(offer)
    case None => Outcome(Err(NullReference), es)
    case Some(None) => Outcome(Err(AllocationNotFound), es)
    case Some(Some(aid)) =>
      ReleaseStorageInKeeps(es, target, aid);
      ReleaseStorageInFrame(es, target, aid);
      var rel := ReleaseStorageIn(es, target, aid);
      if rel.result.Err? then Outcome(Err(rel.result.error), rel.entities)
      else if offer.kind == Sell then TransferIn(rel.entities, ship, target, offer.commodity, offer.quantity)
      else TransferIn(rel.entities, target, ship, offer.commodity, offer.quantity)
  }

  /** The hand-over keeps every ledger valid and touches only the storages
      of the ship and the target. */
  lemma DeliverKeeps(es: map<EntityId, Entity>, ship: EntityId, target: EntityId, offer: TransactionInput)
    requires WorldValid(es) && ship in es && IsShip(es[ship]) && target in es && IsTrader(es[target])
    requires ship != target
    ensures var out := DeliverIn(es, ship, target, offer);
      && WorldValid(out.entities) && out.entities.Keys == es.Keys
      && (forall k :: k in es && k != ship && k != target ==> out.entities[k] == es[k])
      && out.entities[ship].(storage := es[ship].storage) == es[ship]
      && out.entities[target].(storage := es[target].storage) == es[target]
      && out.entities[ship].storage.Some? && out.entities[target].storage.Some?
  {
    var aid := SettledStorageId(offer);
    if aid.Some? && aid.value.Some? {
      ReleaseStorageInKeeps(es, target, aid.value.value);
      ReleaseStorageInFrame(es, target, aid.value.value);
      var rel := ReleaseStorageIn(es, target, aid.value.value);
      if rel.result.Ok? {
        if offer.kind == Sell {
          TransferInEffect(rel.entities, ship, target, offer.commodity, offer.quantity);
        } else {
          TransferInEffect(rel.entities, target, ship, offer.commodity, offer.quantity);
        }
      }
    }
  }

  /** Exactly `q` of `c` left the stock of `from` and arrived in the stock of `to`. */
  predicate Moved(before: map<EntityId, Entity>, after: map<EntityId, Entity>, from: EntityId, to: EntityId,
                  c: Commodity, q: int)
  {
    && from in before && to in before && from in after && to in after
    && before[from].storage.Some? && before[to].storage.Some?
    && after[from].storage.Some? && after[to].storage.Some?
    && c in before[from].storage.value.stored && c in before[to].storage.value.stored
    && after[from].storage.value.stored == before[from].storage.value.stored[c := before[from].storage.value.stored[c] - q]
    && after[to].storage.value.stored == before[to].storage.value.stored[c := before[to].storage.value.stored[c] + q]
  }

  /** The hand-over fails, changing nothing, without an allocation record
      (`null`) or without the settled reservation. */
  lemma DeliverRefusal(es: map<EntityId, Entity>, ship: EntityId, target: EntityId, offer: TransactionInput)
    requires WorldValid(es) && ship in es && IsShip(es[ship]) && target in es && IsTrader(es[target])
    requires ship != target
    ensures var out := DeliverIn(es, ship, target, offer);
      && (SettledStorageId(offer).None? ==> out == Outcome(Err(NullReference), es))
      && (SettledStorageId(offer) == Some(None) ==> out == Outcome(Err(AllocationNotFound), es))
      && (SettledStorageId(offer).Some? && SettledStorageId(offer).value.Some?
          && !HasId(es[target].storage.value.allocations, SettledStorageId(offer).value.value)
          ==> out == Outcome(Err(AllocationNotFound), es))
  {
  }

  /** When the hand-over succeeds the target no longer holds the settled
      reservation. */
  lemma DeliverReleases(es: map<EntityId, Entity>, ship: EntityId, target: EntityId, offer: TransactionInput)
    requires WorldValid(es) && ship in es && IsShip(es[ship]) && target in es && IsTrader(es[target])
    requires ship != target
    ensures var out := DeliverIn(es, ship, target, offer);
      out.result.Ok? ==>
        && SettledStorageId(offer).Some? && SettledStorageId(offer).value.Some?
        && target in out.entities && out.entities[target].storage.Some?
        && !HasId(out.entities[target].storage.value.allocations, SettledStorageId(offer).value.value)
  {
    var aid := SettledStorageId(offer);
    if aid.Some? && aid.value.Some? {
      ReleaseStorageInKeeps(es, target, aid.value.value);
      ReleaseStorageInFrame(es, target, aid.value.value);
      var rel := ReleaseStorageIn(es, target, aid.value.value);
      if rel.result.Ok? {
        if offer.kind == Sell {
          assert DeliverIn(es, ship, target, offer) == TransferIn(rel.entities, ship, target, offer.commodity, offer.quantity);
          TransferInEffect(rel.entities, ship, target, offer.commodity, offer.quantity);
        } else {
          assert DeliverIn(es, ship, target, offer) == TransferIn(rel.entities, target, ship, offer.commodity, offer.quantity);
          TransferInEffect(rel.entities, target, ship, offer.commodity, offer.quantity);
        }
      }
    }
  }

  /** When a sale is handed over, exactly `quantity` of the commodity has
      moved from the ship to the target. */
  lemma DeliverMovesSale(es: map<EntityId, Entity>, ship: EntityId, target: EntityId, offer: TransactionInput)
    requires WorldValid(es) && ship in es && IsShip(es[ship]) && target in es && IsTrader(es[target])
    requires ship != target && offer.kind == Sell
    ensures var out := DeliverIn(es, ship, target, offer);
      out.result.Ok? ==> Moved(es, out.entities, ship, target, offer.commodity, offer.quantity)
  {
    var aid := SettledStorageId(offer);
    if aid.Some? && aid.value.Some? {
      ReleaseStorageInKeeps(es, target, aid.value.value);
      ReleaseStorageInFrame(es, target, aid.value.value);
      var rel := ReleaseStorageIn(es, target, aid.value.value);
      if rel.result.Ok? {
        assert rel.entities[target].storage.value.stored == es[target].storage.value.stored;
        assert rel.entities[ship] == es[ship];
        assert DeliverIn(es, ship, target, offer) == TransferIn(rel.entities, ship, target, offer.commodity, offer.quantity);
        TransferInEffect(rel.entities, ship, target, offer.commodity, offer.quantity);
      }
    }
  }

  /** When a purchase is handed over, exactly `quantity` of the commodity
      has moved from the target to the ship. */
  lemma DeliverMovesPurchase(es: map<EntityId, Entity>, ship: EntityId, target: EntityId, offer: TransactionInput)
    requires WorldValid(es) && ship in es && IsShip(es[ship]) && target in es && IsTrader(es[target])
    requires ship != target && offer.kind == Buy
    ensures var out := DeliverIn(es, ship, target, offer);
      out.result.Ok? ==> Moved(es, out.entities, target, ship, offer.commodity, offer.quantity)
  {
    var aid := SettledStorageId(offer);
    if aid.Some? && aid.value.Some? {
      ReleaseStorageInKeeps(es, target, aid.value.value);
      ReleaseStorageInFrame(es, target, aid.value.value);
      var rel := ReleaseStorageIn(es, target, aid.value.value);
      if rel.result.Ok? {
        assert rel.entities[target].storage.value.stored == es[target].storage.value.stored;
        assert rel.entities[ship] == es[ship];
        assert DeliverIn(es, ship, target, offer) == TransferIn(rel.entities, target, ship, offer.commodity, offer.quantity);
        TransferInEffect(rel.entities, target, ship, offer.commodity, offer.quantity);
      }
    }
  }

  /** `tradeOrder`'s effect on the entities once the drive has been
      retargeted: nothing until the target is reached; then the hand-over
      and `acceptTrade` on the target, once, and the step is done. */
  function TradeActionIn(es: map<EntityId, Entity>, ship: EntityId, target: EntityId, offer: TransactionInput,
                         reached: bool): (out: Outcome<bool>)
    requires WorldValid(es) && ship in es && IsShip(es[ship]) && target in es && IsTrader(es[target])
    requires ship != target
  {
    if !reached then Outcome(Ok(false), es)
    else
      DeliverKeeps(es, ship, target, offer);
      var d := DeliverIn(es, ship, target, offer);
      if d.result.Err? then Outcome(Err(d.result.error), d.entities)
      else
        var a := AcceptTradeIn(d.entities, target, offer);
        if a.result.Err? then Outcome(Err(a.result.error), a.entities)
        else Outcome(Ok(true), a.entities)
  }

  /** Until the target is reached the step changes no entity and is not
      done; once reached it is done exactly when the hand-over and the
      payment both succeed, and then the payment is `acceptTrade` applied
      to the entities after the hand-over. */
  lemma TradeActionEffect(es: map<EntityId, Entity>, ship: EntityId, target: EntityId, offer: TransactionInput,
                          reached: bool)
    requires WorldValid(es) && ship in es && IsShip(es[ship]) && target in es && IsTrader(es[target])
    requires ship != target
    ensures var out := TradeActionIn(es, ship, target, offer, reached);
      && WorldValid(out.entities) && out.entities.Keys == es.Keys
      && (!reached ==> out == Outcome(Ok(false), es))
      && (reached ==> out.result != Ok(false))
      && (reached && out.result.Ok? ==>
            && DeliverIn(es, ship, target, offer).result.Ok?
            && var d := DeliverIn(es, ship, target, offer).entities;
            && target in d && IsTrader(d[target])
            && out.entities == AcceptTradeIn(d, target, offer).entities)
  {
    if reached {
      DeliverKeeps(es, ship, target, offer);
      var d := DeliverIn(es, ship, target, offer);
      if d.result.Ok? {
        AcceptTradeEffect(d.entities, target, offer);
      }
    }
  }

  /** `tradeOrder(entity, order)`: retarget the drive to the order's target;
      once it is reached, hand the goods over and settle the trade. */
  method TradeStep(sim: Sim, drive: Drive, ship: EntityId, order: Order) returns (r: Result<bool>)
    requires order.TradeOrder?
    requires sim.Valid() && ship in sim.entities && IsShip(sim.entities[ship])
    requires order.target in sim.entities && IsTrader(sim.entities[order.target]) && ship != order.target
    modifies sim`entities, drive`state, drive`target, drive`targetReached
    ensures drive.target == Some(order.target)
    ensures drive.targetReached == (old(drive.target) == Some(order.target) && old(drive.targetReached))
    ensures Outcome(r, sim.entities)
            == TradeActionIn(old(sim.entities), ship, order.target, order.offer, drive.targetReached)
    ensures sim.Valid()
  {
    drive.SetTarget(Some(order.target));
    if !drive.targetReached {
      return Ok(false);
    }
    DeliverKeeps(sim.entities, ship, order.target, order.offer);
    var d := Deliver(sim, ship, order.target, order.offer);
    if d.Err? {
      return Err(d.error);
    }
    var a := AcceptTrade(sim, order.target, order.offer);
    if a.Err? {
      return Err(a.error);
    }
    r := Ok(true);
  }

  /** The hand-over, as `DeliverIn`. */
  method Deliver(sim: Sim, ship: EntityId, target: EntityId, offer: TransactionInput) returns (r: Result<()>)
    requires sim.Valid() && ship in sim.entities && IsShip(sim.entities[ship])
    requires target in sim.entities && IsTrader(sim.entities[target]) && ship != target
    modifies sim`entities
    ensures Outcome(r, sim.entities) == DeliverIn(old(sim.entities), ship, target, offer)
  {
    var aid := SettledStorageId(offer);
    if aid.None? {
      return Err(NullReference);
    }
    if aid.value.None? {
      return Err(AllocationNotFound);
    }
    ReleaseStorageInKeeps(sim.entities, target, aid.value.value);
    ReleaseStorageInFrame(sim.entities, target, aid.value.value);
    var released := ReleaseStorageAllocation(sim.entities[target].storage.value, aid.value.value);
    if released.Err? {
      return Err(released.error);
    }
    sim.entities := sim.entities[target := sim.entities[target].(storage := Some(released.value.0))];
    if offer.kind == Sell {
      r := Move(sim, ship, target, offer.commodity, offer.quantity);
    } else {
      r := Move(sim, target, ship, offer.commodity, offer.quantity);
    }
  }

  /** A settling transfer, as `TransferIn`. */
  method Move(sim: Sim, from: EntityId, to: EntityId, c: Commodity, q: int) returns (r: Result<()>)
    requires sim.Valid() && from in sim.entities && sim.entities[from].storage.Some?
    requires to in sim.entities && sim.entities[to].storage.Some?
    modifies sim`entities
    ensures Outcome(r, sim.entities) == TransferIn(old(sim.entities), from, to, c, q)
  {
    var moved := Transfer(sim.entities[from].storage.value, c, q, sim.entities[to].storage.value, true);
    if moved.Err? {
      return Err(moved.error);
    }
    var (f, t) := moved.value;
    sim.entities := sim.entities[from := sim.entities[from].(storage := Some(f))][to := sim.entities[to].(storage := Some(t))];
    r := Ok(());
  }
}
