/** Trade negotiation between ships and facilities over a world of entities:
    whether a facility takes a request, reserving budget and storage for an
    accepted request under one trade id, planning a buy-here/sell-there run
    for a ship, sending a ship home with its cargo, and settling the money
    of a completed trade. */
module Trading {
  import opened Common
  import opened Ledger
  import opened TradeTypes
  import opened Orders

  /** One step of a ship's order group. `MoveTo(from, to)` stands for the
      move orders planned from one entity to another, whose path finding is
      not part of this model. */
  datatype Step = MoveTo(from: EntityId, to: EntityId) | Dock(target: EntityId) | Trade(order: Order)

  /** An entry of a ship's order queue: a `trade` group of steps. */
  datatype OrderGroup = TradeGroup(steps: seq<Step>)

  /** The components of an entity the trading code reads and writes; a
      missing component is `None`. Every entity has an owner faction. */
  datatype Entity = Entity(
    owner: EntityId,
    budget: Option<Budget>,
    storage: Option<Storage>,
    offers: Option<map<Commodity, Offer>>,
    orders: Option<seq<OrderGroup>>,
    dockedIn: Option<EntityId>,
    commander: Option<EntityId>)

  /** The components a trading facility carries (`WithTrade`). */
  predicate IsTrader(e: Entity)
  {
    e.budget.Some? && e.storage.Some? && e.offers.Some?
  }

  /** The components a trading ship carries. */
  predicate IsShip(e: Entity)
  {
    e.storage.Some? && e.orders.Some?
  }

  predicate WellFormed(e: Entity)
  {
    && (e.budget.Some? ==> ValidBudget(e.budget.value))
    && (e.storage.Some? ==> ValidStorage(e.storage.value))
    && (e.offers.Some? ==> Total(e.offers.value))
  }

  /** The simulation: its entities by id and its clock. */
  class Sim {
    var entities: map<EntityId, Entity>
    var time: int

    predicate Valid()
      reads this
    {
      WorldValid(entities)
    }

    constructor (entities: map<EntityId, Entity>, time: int)
      requires forall k :: k in entities ==> WellFormed(entities[k])
      ensures Valid() && this.entities == entities && this.time == time
    {
      this.entities := entities;
      this.time := time;
    }
  }

  // ---------------------------------------------------------------------------
  // Acceptance and reservation

  /** `isTradeAccepted`: a negative ask, a request of the same kind as the
      offer (whatever the faction) and a request for more than is offered are
      errors; a buy needs the price (waived for the owner's faction) and the
      stock; a sell needs the price (waived likewise), the money and the free
      space. */
  function IsTradeAccepted(e: Entity, input: TransactionInput): (r: Result<bool>)
    requires IsTrader(e) && WellFormed(e)
    ensures var offer := e.offers.value[input.commodity];
      && (r.Err? <==> offer.price < 0 || offer.kind == input.kind || offer.quantity < input.quantity)
      && (r.Err? ==> r.error == if offer.price < 0 then NonPositiveAmount
                                else if offer.kind == input.kind then InvalidOfferType
                                else ExceededOfferQuantity)
      && (r.Ok? && input.kind == Buy ==>
            (r.value <==> (input.factionId == e.owner || input.price >= offer.price)
                          && HasSufficientStorage(e.storage.value, input.commodity, input.quantity)))
      && (r.Ok? && input.kind == Sell ==>
            (r.value <==> (input.factionId == e.owner || input.price <= offer.price)
                          && Available(e.budget.value) >= input.price * input.quantity
                          && HasSufficientStorageSpace(e.storage.value, input.quantity)))
  {
    var offer := e.offers.value[input.commodity];
    if offer.price < 0 then Err(NonPositiveAmount)
    else if offer.kind == input.kind then Err(InvalidOfferType)
    else if offer.quantity < input.quantity then Err(ExceededOfferQuantity)
    else if input.kind == Buy then
      var validPrice := if input.factionId == e.owner then true else input.price >= offer.price;
      Ok(validPrice && HasSufficientStorage(e.storage.value, input.commodity, input.quantity))
    else
      var validPrice := if input.factionId == e.owner then true else input.price <= offer.price;
      Ok(validPrice && Available(e.budget.value) >= input.price * input.quantity
         && HasSufficientStorageSpace(e.storage.value, input.quantity))
  }

  /** An accepted request for a non-negative quantity fits the facility's
      storage, and an accepted sell fits its budget. */
  lemma AcceptedFits(e: Entity, input: TransactionInput)
    requires IsTrader(e) && WellFormed(e)
    requires IsTradeAccepted(e, input) == Ok(true) && input.quantity >= 0
    ensures WellFormedAmount(StorageNeed(input)) && Fits(e.storage.value, StorageNeed(input))
    ensures input.kind == Sell ==> Available(e.budget.value) >= input.price * input.quantity
  {
    var x := StorageNeed(input);
    if x.kind == Outgoing {
      forall c | c in CommoditySet
        ensures x.quantities[c] <= AvailableWares(e.storage.value, c)
      {
        assert AvailableWares(e.storage.value, c) >= 0;
      }
    }
  }

  /** What `allocate` hands back: the budget reservation (none for a free
      trade) and the storage reservation. */
  datatype Reservation = Reservation(budget: Option<BudgetAllocation>, storage: StorageAllocation)

  /** The trade id shared by every reservation of one `allocate` call. */
  function TradeIdOf(id: EntityId, input: TransactionInput, time: int): (t: TradeId)
    ensures t.entity == id && t.initiator == input.initiator && t.kind == input.kind && t.time == time
  {
    TradeId(id, input.initiator, input.kind, time)
  }

  /** The entity whose budget a reservation for `input` at facility `id`
      draws on: the facility itself when the requester sells to it, the
      requester's `budget` entity when it buys. */
  function Payer(id: EntityId, input: TransactionInput): Option<EntityId>
  {
    if input.kind == Sell then Some(id) else input.budget
  }

  /** The facility's offers after `allocate` took the requested quantity off. */
  function Decremented(offers: map<Commodity, Offer>, input: TransactionInput): (r: map<Commodity, Offer>)
    requires Total(offers)
    ensures Total(r)
    ensures r[input.commodity].quantity == offers[input.commodity].quantity - input.quantity
    ensures r[input.commodity].price == offers[input.commodity].price
    ensures r[input.commodity].kind == offers[input.commodity].kind
    ensures forall c: Commodity :: c != input.commodity ==> r[c] == offers[c]
  {
    var o := offers[input.commodity];
    offers[input.commodity := o.(quantity := o.quantity - input.quantity)]
  }

  /** The storage reservation a request needs: space for a sell, wares for a buy. */
  function StorageNeed(input: TransactionInput): (x: StorageAmount)
    ensures x.kind == (if input.kind == Sell then Incoming else Outgoing)
    ensures Total(x.quantities) && Sum(x.quantities) == input.quantity
    ensures x.quantities[input.commodity] == input.quantity
    ensures forall c: Commodity :: c != input.commodity ==> x.quantities[c] == 0
  {
    SumSingle(input.commodity, input.quantity);
    StorageAmount(if input.kind == Sell then Incoming else Outgoing, Single(input.commodity, input.quantity))
  }

  /** `after` differs from `before` in its ledgers and offers at most. */
  predicate SameShape(after: Entity, before: Entity)
  {
    && after.owner == before.owner && after.orders == before.orders
    && after.dockedIn == before.dockedIn && after.commander == before.commander
    && after.budget.Some? == before.budget.Some? && after.storage.Some? == before.storage.Some?
    && after.offers.Some? == before.offers.Some?
  }

  /** Every entity of `before` is still in `after`, with the same shape. */
  predicate ShapesKept(after: map<EntityId, Entity>, before: map<EntityId, Entity>)
  {
    forall k :: k in before ==> k in after && SameShape(after[k], before[k])
  }

  lemma ShapesKeptTransitive(a: map<EntityId, Entity>, b: map<EntityId, Entity>, c: map<EntityId, Entity>)
    requires ShapesKept(b, a) && ShapesKept(c, b)
    ensures ShapesKept(c, a)
  {
  }

  /** The result of an operation on the world together with the entities it leaves behind. */
  datatype Outcome<T> = Outcome(result: Result<T>, entities: map<EntityId, Entity>)

  predicate WorldValid(es: map<EntityId, Entity>)
  {
    forall k :: k in es ==> WellFormed(es[k])
  }

  /** `newBudgetAllocation` on the budget of entity `k`. */
  function ReserveBudgetIn(es: map<EntityId, Entity>, k: EntityId, amount: int, time: int, tid: TradeId)
    : (out: Outcome<BudgetAllocation>)
    requires k in es && es[k].budget.Some?
  {
    match NewBudgetAllocation(es[k].budget.value, amount, time, Some(tid))
    case Err(e) => Outcome(Err(e), es)
    case Ok((b, a)) => Outcome(Ok(a), es[k := es[k].(budget := Some(b))])
  }

  /** `newStorageAllocation` on the storage of entity `k`. */
  function ReserveStorageIn(es: map<EntityId, Entity>, k: EntityId, x: StorageAmount, time: int, tid: TradeId)
    : (out: Outcome<StorageAllocation>)
    requires k in es && es[k].storage.Some? && Total(es[k].storage.value.stored)
  {
    match NewStorageAllocation(es[k].storage.value, x, time, Some(tid))
    case Err(e) => Outcome(Err(e), es)
    case Ok((s, a)) => Outcome(Ok(a), es[k := es[k].(storage := Some(s))])
  }

  /** The reservations of an accepted request, once the offer is decremented:
      the payer's budget unless the trade is free, then the facility's storage. */
  function ReserveIn(es: map<EntityId, Entity>, id: EntityId, input: TransactionInput, time: int)
    : (out: Outcome<Reservation>)
    requires id in es && IsTrader(es[id]) && WellFormed(es[id])
  {
    var tid := TradeIdOf(id, input, time);
    var payer := Payer(id, input);
    if input.price != 0 && (payer.None? || payer.value !in es) then Outcome(Err(EntityNotFound), es)
    else if input.price != 0 && es[payer.value].budget.None? then Outcome(Err(MissingComponent), es)
    else
      var b := if input.price == 0 then Outcome(Ok(Allocation(0, 0, time, None)), es)
               else ReserveBudgetIn(es, payer.value, input.price * input.quantity, time, tid);
      if b.result.Err? then Outcome(Err(b.result.error), b.entities)
      else
        assert b.entities[id].storage == es[id].storage;
        var s := ReserveStorageIn(b.entities, id, StorageNeed(input), time, tid);
        if s.result.Err? then Outcome(Err(s.result.error), s.entities)
        else Outcome(Ok(Reservation(if input.price == 0 then None else Some(b.result.value), s.result.value)),
                     s.entities)
  }

  /** `allocate` on the entities `es` at time `time`. */
  function AllocateIn(es: map<EntityId, Entity>, id: EntityId, input: TransactionInput, time: int)
    : (out: Outcome<Option<Reservation>>)
    requires id in es && IsTrader(es[id]) && WellFormed(es[id])
  {
    match IsTradeAccepted(es[id], input)
    case Err(e) => Outcome(Err(e), es)
    case Ok(accepted) =>
      if !accepted then Outcome(Ok(None), es)
      else
        var es1 := es[id := es[id].(offers := Some(Decremented(es[id].offers.value, input)))];
        var p := ReserveIn(es1, id, input, time);
        Outcome(if p.result.Err? then Err(p.result.error) else Ok(Some(p.result.value)), p.entities)
  }

  /** `allocate`: nothing changes for a refused request or one the checks
      reject. For an accepted one the offer shrinks by the requested quantity
      first; then, unless the trade is free, the payer's budget reserves
      price × quantity; then the facility's storage reserves the space (sell)
      or the wares (buy). A later step that fails leaves the earlier ones in
      place. */
  method Allocate(sim: Sim, id: EntityId, input: TransactionInput) returns (r: Result<Option<Reservation>>)
    requires sim.Valid() && id in sim.entities && IsTrader(sim.entities[id])
    modifies sim`entities
    ensures Outcome(r, sim.entities) == AllocateIn(old(sim.entities), id, input, sim.time)
    ensures sim.Valid()
  {
    AllocateKeepsWorld(sim.entities, id, input, sim.time);
    var e := sim.entities[id];
    var acc := IsTradeAccepted(e, input);
    if acc.Err? {
      return Err(acc.error);
    }
    if !acc.value {
      return Ok(None);
    }
    e := e.(offers := Some(Decremented(e.offers.value, input)));
    sim.entities := sim.entities[id := e];
    var tid := TradeIdOf(id, input, sim.time);
    var budgetAllocation: Option<BudgetAllocation> := None;
    if input.price != 0 {
      var payer := id;
      if input.kind == Buy {
        if input.budget.None? || input.budget.value !in sim.entities {
          return Err(EntityNotFound);
        }
        payer := input.budget.value;
        if sim.entities[payer].budget.None? {
          return Err(MissingComponent);
        }
      }
      var pe := sim.entities[payer];
      var b := NewBudgetAllocation(pe.budget.value, input.price * input.quantity, sim.time, Some(tid));
      if b.Err? {
        return Err(b.error);
      }
      sim.entities := sim.entities[payer := pe.(budget := Some(b.value.0))];
      budgetAllocation := Some(b.value.1);
    }
    var se := sim.entities[id];
    var s := NewStorageAllocation(se.storage.value, StorageNeed(input), sim.time, Some(tid));
    if s.Err? {
      return Err(s.error);
    }
    sim.entities := sim.entities[id := se.(storage := Some(s.value.0))];
    r := Ok(Some(Reservation(budgetAllocation, s.value.1)));
  }

  lemma ReserveBudgetInKeeps(es: map<EntityId, Entity>, k: EntityId, amount: int, time: int, tid: TradeId)
    requires WorldValid(es) && k in es && es[k].budget.Some?
    ensures var out := ReserveBudgetIn(es, k, amount, time, tid);
      && WorldValid(out.entities) && out.entities.Keys == es.Keys
      && out.entities[k].budget.Some? && out.entities[k].(budget := es[k].budget) == es[k]
      && (forall j :: j in es && j != k ==> out.entities[j] == es[j])
  {
  }

  lemma ReserveStorageInKeeps(es: map<EntityId, Entity>, k: EntityId, x: StorageAmount, time: int, tid: TradeId)
    requires WorldValid(es) && k in es && es[k].storage.Some?
    ensures var out := ReserveStorageIn(es, k, x, time, tid);
      && WorldValid(out.entities) && out.entities.Keys == es.Keys
      && out.entities[k].storage.Some? && out.entities[k].(storage := es[k].storage) == es[k]
      && (forall j :: j in es && j != k ==> out.entities[j] == es[j])
  {
  }

  lemma ReserveInValid(es: map<EntityId, Entity>, id: EntityId, input: TransactionInput, time: int)
    requires WorldValid(es) && id in es && IsTrader(es[id])
    ensures var out := ReserveIn(es, id, input, time);
      WorldValid(out.entities) && out.entities.Keys == es.Keys
  {
    var tid := TradeIdOf(id, input, time);
    var payer := Payer(id, input);
    if input.price != 0 && payer.Some? && payer.value in es && es[payer.value].budget.Some? {
      ReserveBudgetInKeeps(es, payer.value, input.price * input.quantity, time, tid);
      var b := ReserveBudgetIn(es, payer.value, input.price * input.quantity, time, tid);
      if b.result.Ok? {
        ReserveStorageInKeeps(b.entities, id, StorageNeed(input), time, tid);
        ReservePaidUnfold(es, id, input, time);
      }
    } else if input.price == 0 {
      ReserveStorageInKeeps(es, id, StorageNeed(input), time, tid);
    }
  }

  /** A paid reservation whose budget half succeeded is the storage half
      on the entities the budget half left. */
  lemma ReservePaidUnfold(es: map<EntityId, Entity>, id: EntityId, input: TransactionInput, time: int)
    requires id in es && IsTrader(es[id]) && WellFormed(es[id])
    requires input.price != 0 && Payer(id, input).Some? && Payer(id, input).value in es
    requires es[Payer(id, input).value].budget.Some?
    requires ReserveBudgetIn(es, Payer(id, input).value, input.price * input.quantity, time, TradeIdOf(id, input, time)).result.Ok?
    ensures var tid := TradeIdOf(id, input, time);
      var b := ReserveBudgetIn(es, Payer(id, input).value, input.price * input.quantity, time, tid);
      && id in b.entities && b.entities[id].storage == es[id].storage
      && var st := ReserveStorageIn(b.entities, id, StorageNeed(input), time, tid);
      && ReserveIn(es, id, input, time)
         == if st.result.Err? then Outcome(Err(st.result.error), st.entities)
            else Outcome(Ok(Reservation(Some(b.result.value), st.result.value)), st.entities)
  {
    ReserveBudgetInFrame(es, Payer(id, input).value, input.price * input.quantity, time, TradeIdOf(id, input, time));
  }

  lemma ReserveBudgetInFrame(es: map<EntityId, Entity>, k: EntityId, amount: int, time: int, tid: TradeId)
    requires k in es && es[k].budget.Some?
    ensures var out := ReserveBudgetIn(es, k, amount, time, tid);
      && out.entities.Keys == es.Keys
      && out.entities[k].budget.Some? && out.entities[k].(budget := es[k].budget) == es[k]
      && (forall j :: j in es && j != k ==> out.entities[j] == es[j])
  {
  }

  lemma ReserveStorageInFrame(es: map<EntityId, Entity>, k: EntityId, x: StorageAmount, time: int, tid: TradeId)
    requires k in es && es[k].storage.Some? && Total(es[k].storage.value.stored)
    ensures var out := ReserveStorageIn(es, k, x, time, tid);
      && out.entities.Keys == es.Keys
      && out.entities[k].storage.Some? && out.entities[k].(storage := es[k].storage) == es[k]
      && (forall j :: j in es && j != k ==> out.entities[j] == es[j])
  {
  }

  lemma ReserveInFrame(es: map<EntityId, Entity>, id: EntityId, input: TransactionInput, time: int)
    requires id in es && IsTrader(es[id]) && WellFormed(es[id])
    ensures var out := ReserveIn(es, id, input, time);
      && id in out.entities && IsTrader(out.entities[id]) && out.entities[id].owner == es[id].owner
      && out.entities[id].offers == es[id].offers
      && (forall k :: k in es && k != id && Some(k) != Payer(id, input) ==> k in out.entities && out.entities[k] == es[k])
  {
    var tid := TradeIdOf(id, input, time);
    var payer := Payer(id, input);
    if input.price != 0 && payer.Some? && payer.value in es && es[payer.value].budget.Some? {
      ReserveBudgetInFrame(es, payer.value, input.price * input.quantity, time, tid);
      var b := ReserveBudgetIn(es, payer.value, input.price * input.quantity, time, tid);
      if b.result.Ok? {
        ReserveStorageInFrame(b.entities, id, StorageNeed(input), time, tid);
        ReservePaidUnfold(es, id, input, time);
      }
    } else if input.price == 0 {
      ReserveStorageInFrame(es, id, StorageNeed(input), time, tid);
    }
  }

  /** `allocate` keeps every ledger valid and every offer table total, adds
      and removes no entity, and touches only the facility and the payer. */
  lemma AllocateKeepsWorld(es: map<EntityId, Entity>, id: EntityId, input: TransactionInput, time: int)
    requires WorldValid(es) && id in es && IsTrader(es[id])
    ensures var out := AllocateIn(es, id, input, time);
      && WorldValid(out.entities) && out.entities.Keys == es.Keys
      && id in out.entities && IsTrader(out.entities[id]) && out.entities[id].owner == es[id].owner
      && (forall k :: k in es && k != id && Some(k) != Payer(id, input) ==> out.entities[k] == es[k])
  {
    if IsTradeAccepted(es[id], input) == Ok(true) {
      var es1 := es[id := es[id].(offers := Some(Decremented(es[id].offers.value, input)))];
      ReserveInValid(es1, id, input, time);
      ReserveInFrame(es1, id, input, time);
    }
  }

  lemma ReserveBudgetInShape(es: map<EntityId, Entity>, k: EntityId, amount: int, time: int, tid: TradeId)
    requires k in es && es[k].budget.Some?
    ensures var out := ReserveBudgetIn(es, k, amount, time, tid);
      ShapesKept(out.entities, es)
  {
  }

  lemma ReserveStorageInShape(es: map<EntityId, Entity>, k: EntityId, x: StorageAmount, time: int, tid: TradeId)
    requires k in es && es[k].storage.Some? && Total(es[k].storage.value.stored)
    ensures var out := ReserveStorageIn(es, k, x, time, tid);
      ShapesKept(out.entities, es)
  {
  }

  lemma ReservePaidShape(es: map<EntityId, Entity>, id: EntityId, input: TransactionInput, time: int)
    requires id in es && IsTrader(es[id]) && WellFormed(es[id])
    requires input.price != 0 && Payer(id, input).Some? && Payer(id, input).value in es
    requires es[Payer(id, input).value].budget.Some?
    ensures var out := ReserveIn(es, id, input, time);
      ShapesKept(out.entities, es)
  {
    var tid := TradeIdOf(id, input, time);
    var payer := Payer(id, input).value;
    ReserveBudgetInShape(es, payer, input.price * input.quantity, time, tid);
    var b := ReserveBudgetIn(es, payer, input.price * input.quantity, time, tid);
    if b.result.Ok? {
      assert b.entities[id].storage == es[id].storage by {
        ReserveBudgetInFrame(es, payer, input.price * input.quantity, time, tid);
      }
      ReserveStorageInShape(b.entities, id, StorageNeed(input), time, tid);
      var st := ReserveStorageIn(b.entities, id, StorageNeed(input), time, tid);
      ShapesKeptTransitive(es, b.entities, st.entities);
      ReservePaidUnfold(es, id, input, time);
    }
  }

  lemma ReserveInShape(es: map<EntityId, Entity>, id: EntityId, input: TransactionInput, time: int)
    requires id in es && IsTrader(es[id]) && WellFormed(es[id])
    ensures var out := ReserveIn(es, id, input, time);
      ShapesKept(out.entities, es)
  {
    var payer := Payer(id, input);
    if input.price != 0 && payer.Some? && payer.value in es && es[payer.value].budget.Some? {
      ReservePaidShape(es, id, input, time);
    } else if input.price == 0 {
      ReserveStorageInShape(es, id, StorageNeed(input), time, TradeIdOf(id, input, time));
    }
  }

  /** `allocate` changes no entity's owner, orders, docking or commander,
      and adds or drops no component. */
  lemma AllocateShape(es: map<EntityId, Entity>, id: EntityId, input: TransactionInput, time: int)
    requires id in es && IsTrader(es[id]) && WellFormed(es[id])
    ensures var out := AllocateIn(es, id, input, time);
      ShapesKept(out.entities, es)
  {
    if IsTradeAccepted(es[id], input) == Ok(true) {
      var es1 := es[id := es[id].(offers := Some(Decremented(es[id].offers.value, input)))];
      ReserveInShape(es1, id, input, time);
    }
  }

  /** The storage half of a successful reservation. */
  lemma ReserveInStorage(es: map<EntityId, Entity>, id: EntityId, input: TransactionInput, time: int)
    requires id in es && IsTrader(es[id]) && WellFormed(es[id])
    ensures var out := ReserveIn(es, id, input, time);
      out.result.Ok? ==>
        var p := out.result.value;
        && p.storage.tradeId == Some(TradeIdOf(id, input, time)) && p.storage.amount == StorageNeed(input)
        && id in out.entities && out.entities[id].storage.Some?
        && out.entities[id].storage.value.allocations == es[id].storage.value.allocations + [p.storage]
        && out.entities[id].storage.value.stored == es[id].storage.value.stored
        && !HasId(es[id].storage.value.allocations, p.storage.id)
        && (p.budget.None? <==> input.price == 0)
        && (p.budget.None? ==> out.entities[id].budget == es[id].budget)
  {
    var tid := TradeIdOf(id, input, time);
    var payer := Payer(id, input);
    if input.price != 0 && payer.Some? && payer.value in es && es[payer.value].budget.Some? {
      ReserveBudgetInFrame(es, payer.value, input.price * input.quantity, time, tid);
      var b := ReserveBudgetIn(es, payer.value, input.price * input.quantity, time, tid);
      if b.result.Ok? {
        ReserveStorageInFrame(b.entities, id, StorageNeed(input), time, tid);
        ReservePaidUnfold(es, id, input, time);
      }
    } else if input.price == 0 {
      ReserveStorageInFrame(es, id, StorageNeed(input), time, tid);
    }
  }

  /** The budget half of a successful paid reservation. */
  lemma ReserveInBudget(es: map<EntityId, Entity>, id: EntityId, input: TransactionInput, time: int)
    requires id in es && IsTrader(es[id]) && WellFormed(es[id])
    ensures var out := ReserveIn(es, id, input, time);
      out.result.Ok? && out.result.value.budget.Some? ==>
        var a := out.result.value.budget.value;
        && a.amount == input.price * input.quantity && a.tradeId == Some(TradeIdOf(id, input, time))
        && Payer(id, input).Some? && Payer(id, input).value in es
        && var payer := Payer(id, input).value;
        && es[payer].budget.Some? && payer in out.entities && out.entities[payer].budget.Some?
        && out.entities[payer].budget.value.allocations == es[payer].budget.value.allocations + [a]
        && out.entities[payer].budget.value.money == es[payer].budget.value.money
        && (ValidBudget(es[payer].budget.value) ==> !HasId(es[payer].budget.value.allocations, a.id))
  {
    var tid := TradeIdOf(id, input, time);
    var payer := Payer(id, input);
    if input.price != 0 && payer.Some? && payer.value in es && es[payer.value].budget.Some? {
      ReserveBudgetInFrame(es, payer.value, input.price * input.quantity, time, tid);
      var b := ReserveBudgetIn(es, payer.value, input.price * input.quantity, time, tid);
      if b.result.Ok? {
        ReserveStorageInFrame(b.entities, id, StorageNeed(input), time, tid);
        var st := ReserveStorageIn(b.entities, id, StorageNeed(input), time, tid);
        assert st.entities[payer.value].budget == b.entities[payer.value].budget;
      }
    }
  }

  /** The reservations `allocate` makes for an accepted request: the storage
      reservation is appended to the facility's storage, for exactly the
      requested quantity of the traded commodity (space for a sell, wares for
      a buy); a budget reservation exists exactly when the trade is not free,
      for price × quantity, appended to the payer's budget; both carry the
      trade id made of the facility, the initiator, the kind and the time. */
  lemma AllocateReservations(es: map<EntityId, Entity>, id: EntityId, input: TransactionInput, time: int)
    requires WorldValid(es) && id in es && IsTrader(es[id])
    ensures var out := AllocateIn(es, id, input, time);
      out.result.Ok? && out.result.value.Some? ==>
        var p := out.result.value.value;
        var tid := TradeIdOf(id, input, time);
        && IsTradeAccepted(es[id], input) == Ok(true)
        && p.storage.tradeId == Some(tid) && p.storage.amount == StorageNeed(input)
        && out.entities[id].storage.value.allocations == es[id].storage.value.allocations + [p.storage]
        && out.entities[id].storage.value.stored == es[id].storage.value.stored
        && !HasId(es[id].storage.value.allocations, p.storage.id)
        && (p.budget.None? <==> input.price == 0)
        && (p.budget.None? ==> out.entities[id].budget == es[id].budget)
        && (p.budget.Some? ==>
              && p.budget.value.amount == input.price * input.quantity && p.budget.value.tradeId == Some(tid)
              && Payer(id, input).Some? && Payer(id, input).value in es
              && var payer := Payer(id, input).value;
              && es[payer].budget.Some? && out.entities[payer].budget.Some?
              && out.entities[payer].budget.value.allocations == es[payer].budget.value.allocations + [p.budget.value]
              && out.entities[payer].budget.value.money == es[payer].budget.value.money
              && !HasId(es[payer].budget.value.allocations, p.budget.value.id))
  {
    AllocateKeepsWorld(es, id, input, time);
    if IsTradeAccepted(es[id], input) == Ok(true) {
      var es1 := es[id := es[id].(offers := Some(Decremented(es[id].offers.value, input)))];
      ReserveInStorage(es1, id, input, time);
      ReserveInBudget(es1, id, input, time);
    }
  }

  /** `allocate` on a refused request, or one the checks reject, changes
      nothing; on an accepted one it always takes the quantity off the offer. */
  lemma AllocateRefusal(es: map<EntityId, Entity>, id: EntityId, input: TransactionInput, time: int)
    requires WorldValid(es) && id in es && IsTrader(es[id])
    ensures var out := AllocateIn(es, id, input, time);
      var acc := IsTradeAccepted(es[id], input);
      && (acc.Err? ==> out == Outcome(Err(acc.error), es))
      && (acc == Ok(false) ==> out == Outcome(Ok(None), es))
      && (acc == Ok(true) ==>
            out.result != Ok(None) && out.entities[id].offers == Some(Decremented(es[id].offers.value, input)))
  {
    if IsTradeAccepted(es[id], input) == Ok(true) {
      var es1 := es[id := es[id].(offers := Some(Decremented(es[id].offers.value, input)))];
      ReserveInFrame(es1, id, input, time);
    }
  }

  /** An accepted request for a non-negative quantity at a non-negative
      price is reserved whenever the payer of a paid buy exists and can
      afford it: the acceptance checks already cover the storage and, for a
      sell, the facility's own budget. */
  lemma AllocateSucceeds(es: map<EntityId, Entity>, id: EntityId, input: TransactionInput, time: int)
    requires WorldValid(es) && id in es && IsTrader(es[id])
    requires IsTradeAccepted(es[id], input) == Ok(true) && input.quantity >= 0 && input.price >= 0
    requires input.kind == Buy && input.price != 0 ==>
               input.budget.Some? && input.budget.value in es && es[input.budget.value].budget.Some?
               && Available(es[input.budget.value].budget.value) >= input.price * input.quantity
    ensures AllocateIn(es, id, input, time).result.Ok?
    ensures AllocateIn(es, id, input, time).result.value.Some?
  {
    AcceptedFits(es[id], input);
    var es1 := es[id := es[id].(offers := Some(Decremented(es[id].offers.value, input)))];
    var tid := TradeIdOf(id, input, time);
    var payer := Payer(id, input);
    if input.price != 0 {
      ReserveBudgetInFrame(es1, payer.value, input.price * input.quantity, time, tid);
    }
  }

  // ---------------------------------------------------------------------------
  // Sizing a buy-here/sell-there run

  /** `Math.floor(Math.min(...))` of the run's quantity: a number, or `NaN`
      when the budget term is 0 / 0. */
  datatype Sizing = Sized(quantity: int) | NotANumber

  function Min(a: int, b: int): int
  {
    if a <= b then a else b
  }

  /** Whether `x` units stay within `budget / price` (no bound at price 0). */
  predicate Affordable(x: int, budget: int, price: int)
  {
    if price > 0 then x * price <= budget
    else if price < 0 then x * price >= budget
    else true
  }

  /** Whether `x` units respect all four limits of a run. */
  predicate Admissible(x: int, buyerQ: int, space: int, sellerQ: int, budget: int, price: int)
  {
    x <= buyerQ && x <= space && x <= sellerQ && Affordable(x, budget, price)
  }

  /** The quantity of a run: the least of the buyer's wanted quantity, the
      ship's free space, the seller's offered quantity and the budget divided
      by the seller's price, rounded down. A price of 0 makes the budget term
      infinite, and dropped, unless the budget is 0 as well: 0 / 0 is `NaN`. */
  function TradeQuantity(buyerQ: int, space: int, sellerQ: int, budget: int, price: int): (r: Sizing)
    requires budget >= 0
    ensures r.NotANumber? <==> price == 0 && budget == 0
    ensures r.Sized? ==> Admissible(r.quantity, buyerQ, space, sellerQ, budget, price)
  {
    var bound := Min(Min(buyerQ, space), sellerQ);
    if price == 0 then
      if budget == 0 then NotANumber else Sized(bound)
    else if price > 0 then
      var f := FloorDiv(budget, price);
      MulCommutes(f, price);
      Sized(Min(bound, f))
    else
      var c := CeilDiv(budget, -price);
      MulCommutes(-c, price);
      Sized(Min(bound, -c))
  }

  lemma MulCommutes(a: int, b: int)
    ensures a * b == b * a
  {
  }

  lemma MulMonotone(x: int, y: int, k: int)
    requires x <= y && k >= 0
    ensures x * k <= y * k
  {
  }

  /** The quantity is the largest whole number that respects every limit. */
  lemma TradeQuantityIsGreatest(buyerQ: int, space: int, sellerQ: int, budget: int, price: int, x: int)
    requires budget >= 0 && TradeQuantity(buyerQ, space, sellerQ, budget, price).Sized?
    requires Admissible(x, buyerQ, space, sellerQ, budget, price)
    ensures x <= TradeQuantity(buyerQ, space, sellerQ, budget, price).quantity
  {
    if price > 0 {
      var f := FloorDiv(budget, price);
      if x > f {
        MulMonotone(f + 1, x, price);
        MulCommutes(f + 1, price);
      }
    } else if price < 0 {
      var c := CeilDiv(budget, -price);
      if x > -c {
        MulMonotone(-x, c - 1, -price);
        MulCommutes(c - 1, -price);
      }
    }
  }

  // ---------------------------------------------------------------------------
  // `tradeCommodity`

  /** The entity whose budget pays for a ship's runs: its commander, or else its owner. */
  function Holder(ship: Entity): EntityId
  {
    if ship.commander.Some? then ship.commander.value else ship.owner
  }

  /** The move and dock steps that bring a ship docked at `docked` to `target`:
      none when it is already docked there. */
  function Approach(ship: EntityId, docked: Option<EntityId>, target: EntityId): (r: seq<Step>)
    ensures docked == Some(target) ==> r == []
    ensures docked != Some(target) ==> r == [MoveTo(ship, target), Dock(target)]
  {
    if docked != Some(target) then [MoveTo(ship, target), Dock(target)] else []
  }

  /** `allocation?.id ?? null` */
  function IdOf(a: Option<BudgetAllocation>): Option<nat>
  {
    if a.Some? then Some(a.value.id) else None
  }

  /** The quantity a run of `ship` from `seller` to `buyer` is sized to. */
  function RunQuantity(es: map<EntityId, Entity>, ship: EntityId, c: Commodity, buyer: EntityId, seller: EntityId): Sizing
    requires WorldValid(es) && ship in es && IsShip(es[ship])
    requires buyer in es && IsTrader(es[buyer]) && seller in es && IsTrader(es[seller])
    requires Holder(es[ship]) in es && es[Holder(es[ship])].budget.Some?
  {
    TradeQuantity(es[buyer].offers.value[c].quantity, AvailableSpace(es[ship].storage.value),
                  es[seller].offers.value[c].quantity, Available(es[Holder(es[ship])].budget.value),
                  es[seller].offers.value[c].price)
  }

  /** The request made to one facility of a run: the ship trades `q` units
      for its owner, paid from the holder's budget; the price is waived at the
      ship's own commander. */
  function RunInput(es: map<EntityId, Entity>, ship: EntityId, c: Commodity, facility: EntityId, q: int, kind: OfferType)
    : (input: TransactionInput)
    requires ship in es && facility in es && IsTrader(es[facility]) && WellFormed(es[facility])
    ensures input.commodity == c && input.kind == kind && input.quantity == q
    ensures input.initiator == ship && input.factionId == es[ship].owner && input.budget == Some(Holder(es[ship]))
    ensures input.price == if es[ship].commander == Some(facility) then 0 else es[facility].offers.value[c].price
    ensures input.allocations.None?
  {
    var price := if es[ship].commander == Some(facility) then 0 else es[facility].offers.value[c].price;
    TransactionInput(c, kind, q, price, es[ship].owner, ship, Some(Holder(es[ship])), None)
  }

  /** With a `NaN` quantity nothing is reserved: every comparison with it is
      false, so the buyer's checks that come before any comparison decide. */
  function NotANumberRun(buyerOffer: Offer): (r: Result<bool>)
    ensures r != Ok(true)
  {
    if buyerOffer.price < 0 then Err(NonPositiveAmount)
    else if buyerOffer.kind == Sell then Err(InvalidOfferType)
    else Ok(false)
  }

  /** The steps of a run: to the seller unless docked there, buy, to the
      buyer, dock, sell. Each trade step carries the ids of its reservations. */
  function RunSteps(ship: EntityId, docked: Option<EntityId>, buyer: EntityId, seller: EntityId,
                    forBuyer: TransactionInput, forSeller: TransactionInput,
                    atBuyer: Reservation, atSeller: Reservation): (r: Result<seq<Step>>)
    ensures r.Err? <==> forSeller.quantity <= 0 || forBuyer.quantity <= 0
    ensures r.Ok? ==>
      var n := |Approach(ship, docked, seller)|;
      && |r.value| == n + 4 && r.value[..n] == Approach(ship, docked, seller)
      && r.value[n] == Trade(TradeOrder(forSeller.(allocations := Some(TradeAllocations(
           AllocationRefs(IdOf(atSeller.budget), None), AllocationRefs(None, Some(atSeller.storage.id))))), seller))
      && r.value[n + 1] == MoveTo(seller, buyer) && r.value[n + 2] == Dock(buyer)
      && r.value[n + 3] == Trade(TradeOrder(forBuyer.(allocations := Some(TradeAllocations(
           AllocationRefs(IdOf(atBuyer.budget), Some(atBuyer.storage.id)), AllocationRefs(None, None)))), buyer))
  {
    var sellerLeg := TradeOrderOf(forSeller.(allocations := Some(TradeAllocations(
      AllocationRefs(IdOf(atSeller.budget), None), AllocationRefs(None, Some(atSeller.storage.id))))), seller);
    var buyerLeg := TradeOrderOf(forBuyer.(allocations := Some(TradeAllocations(
      AllocationRefs(IdOf(atBuyer.budget), Some(atBuyer.storage.id)), AllocationRefs(None, None)))), buyer);
    if sellerLeg.Err? then Err(sellerLeg.error)
    else if buyerLeg.Err? then Err(buyerLeg.error)
    else Ok(Approach(ship, docked, seller) + [Trade(sellerLeg.value), MoveTo(seller, buyer), Dock(buyer), Trade(buyerLeg.value)])
  }

  /** `releaseBudgetAllocation` on the budget of entity `k`. */
  function ReleaseBudgetIn(es: map<EntityId, Entity>, k: EntityId, id: nat): (out: Outcome<bool>)
    requires k in es && es[k].budget.Some?
  {
    match ReleaseBudgetAllocation(es[k].budget.value, id)
    case Err(e) => Outcome(Err(e), es)
    case Ok((b, _)) => Outcome(Ok(false), es[k := es[k].(budget := Some(b))])
  }

  /** `releaseStorageAllocation` on the storage of entity `k`. */
  function ReleaseStorageIn(es: map<EntityId, Entity>, k: EntityId, id: nat): (out: Outcome<bool>)
    requires k in es && es[k].storage.Some? && Total(es[k].storage.value.stored)
  {
    match ReleaseStorageAllocation(es[k].storage.value, id)
    case Err(e) => Outcome(Err(e), es)
    case Ok((st, _)) => Outcome(Ok(false), es[k := es[k].(storage := Some(st))])
  }

  /** Undo the buyer's reservations of a run whose seller refused: each one
      with a truthy (nonzero) id is released. */
  function RollbackIn(es: map<EntityId, Entity>, buyer: EntityId, res: Reservation): (out: Outcome<bool>)
    requires buyer in es && IsTrader(es[buyer]) && WellFormed(es[buyer])
  {
    var b := if res.budget.Some? && res.budget.value.id != 0 then ReleaseBudgetIn(es, buyer, res.budget.value.id)
             else Outcome(Ok(false), es);
    if b.result.Err? || res.storage.id == 0 then b
    else ReleaseStorageIn(b.entities, buyer, res.storage.id)
  }

  /** The reserving part of a sized run: at the buyer, then at the seller,
      rolling the buyer back if the seller refuses, then queueing the steps. */
  function ReserveRunIn(es: map<EntityId, Entity>, ship: EntityId, buyer: EntityId, seller: EntityId,
                        forBuyer: TransactionInput, forSeller: TransactionInput, time: int): (out: Outcome<bool>)
    requires WorldValid(es) && ship in es && IsShip(es[ship])
    requires buyer in es && IsTrader(es[buyer]) && seller in es && IsTrader(es[seller])
  {
    AllocateKeepsWorld(es, buyer, forBuyer, time);
    AllocateShape(es, buyer, forBuyer, time);
    var a := AllocateIn(es, buyer, forBuyer, time);
    if a.result.Err? then Outcome(Err(a.result.error), a.entities)
    else if a.result.value.None? then Outcome(Ok(false), a.entities)
    else SellerStageIn(a.entities, ship, es[ship].dockedIn, buyer, seller, forBuyer, forSeller, a.result.value.value, time)
  }

  /** The seller's half of a run, once the buyer holds the reservation
      `res`: reserve at the seller; if it refuses, roll the buyer back;
      otherwise queue the run's steps on the ship (`docked` is where the
      ship was docked when the run started). */
  function SellerStageIn(es: map<EntityId, Entity>, ship: EntityId, docked: Option<EntityId>, buyer: EntityId, seller: EntityId,
                         forBuyer: TransactionInput, forSeller: TransactionInput, res: Reservation, time: int): (out: Outcome<bool>)
    requires WorldValid(es) && ship in es && IsShip(es[ship])
    requires buyer in es && IsTrader(es[buyer]) && seller in es && IsTrader(es[seller])
  {
    AllocateKeepsWorld(es, seller, forSeller, time);
    AllocateShape(es, seller, forSeller, time);
    var b := AllocateIn(es, seller, forSeller, time);
    if b.result.Err? then Outcome(Err(b.result.error), b.entities)
    else if b.result.value.None? then RollbackIn(b.entities, buyer, res)
    else
      match RunSteps(ship, docked, buyer, seller, forBuyer, forSeller, res, b.result.value.value)
      case Err(e) => Outcome(Err(e), b.entities)
      case Ok(steps) => Outcome(Ok(true), QueueGroup(b.entities, ship, steps))
  }

  /** `tradeCommodity(ship, c, buyer, seller)` on the entities `es` at time `time`. */
  function TradeCommodityIn(es: map<EntityId, Entity>, ship: EntityId, c: Commodity, buyer: EntityId, seller: EntityId, time: int)
    : (out: Outcome<bool>)
    requires WorldValid(es) && ship in es && IsShip(es[ship])
    requires buyer in es && IsTrader(es[buyer]) && seller in es && IsTrader(es[seller])
  {
    var holder := Holder(es[ship]);
    if holder !in es then Outcome(Err(EntityNotFound), es)
    else if es[holder].budget.None? then Outcome(Err(MissingComponent), es)
    else
      match RunQuantity(es, ship, c, buyer, seller)
      case NotANumber => Outcome(NotANumberRun(es[buyer].offers.value[c]), es)
      case Sized(q) =>
        var forBuyer := RunInput(es, ship, c, buyer, q, Sell);
        var forSeller := RunInput(es, ship, c, seller, q, Buy);
        if q == 0 || forSeller.price * q > Available(es[holder].budget.value) then Outcome(Ok(false), es)
        else ReserveRunIn(es, ship, buyer, seller, forBuyer, forSeller, time)
  }

  lemma ReleaseBudgetInKeeps(es: map<EntityId, Entity>, k: EntityId, id: nat)
    requires WorldValid(es) && k in es && es[k].budget.Some?
    ensures var out := ReleaseBudgetIn(es, k, id);
      WorldValid(out.entities) && out.entities.Keys == es.Keys
  {
  }

  lemma ReleaseStorageInKeeps(es: map<EntityId, Entity>, k: EntityId, id: nat)
    requires WorldValid(es) && k in es && es[k].storage.Some?
    ensures var out := ReleaseStorageIn(es, k, id);
      WorldValid(out.entities) && out.entities.Keys == es.Keys
  {
  }

  lemma ReleaseBudgetInFrame(es: map<EntityId, Entity>, k: EntityId, id: nat)
    requires k in es && es[k].budget.Some?
    ensures var out := ReleaseBudgetIn(es, k, id);
      && out.result != Ok(true) && ShapesKept(out.entities, es)
      && out.entities[k].(budget := es[k].budget) == es[k]
      && (forall j :: j in es && j != k ==> out.entities[j] == es[j])
  {
  }

  lemma ReleaseStorageInFrame(es: map<EntityId, Entity>, k: EntityId, id: nat)
    requires k in es && es[k].storage.Some? && Total(es[k].storage.value.stored)
    ensures var out := ReleaseStorageIn(es, k, id);
      && out.result != Ok(true) && ShapesKept(out.entities, es)
      && out.entities[k].(storage := es[k].storage) == es[k]
      && (forall j :: j in es && j != k ==> out.entities[j] == es[j])
  {
  }

  /** The releases of a rollback keep every ledger valid. */
  lemma RollbackKeepsWorld(es: map<EntityId, Entity>, buyer: EntityId, res: Reservation)
    requires WorldValid(es) && buyer in es && IsTrader(es[buyer])
    ensures var out := RollbackIn(es, buyer, res);
      WorldValid(out.entities) && out.entities.Keys == es.Keys
  {
    if res.budget.Some? && res.budget.value.id != 0 {
      ReleaseBudgetInKeeps(es, buyer, res.budget.value.id);
      ReleaseBudgetInFrame(es, buyer, res.budget.value.id);
      var b := ReleaseBudgetIn(es, buyer, res.budget.value.id);
      if b.result.Ok? && res.storage.id != 0 {
        ReleaseStorageInKeeps(b.entities, buyer, res.storage.id);
      }
    } else if res.storage.id != 0 {
      ReleaseStorageInKeeps(es, buyer, res.storage.id);
    }
  }

  /** A rollback only touches the buyer's ledgers and never reports a trade. */
  lemma RollbackFrame(es: map<EntityId, Entity>, buyer: EntityId, res: Reservation)
    requires buyer in es && IsTrader(es[buyer]) && WellFormed(es[buyer])
    ensures var out := RollbackIn(es, buyer, res);
      && out.result != Ok(true) && ShapesKept(out.entities, es)
      && (forall k :: k in es && k != buyer ==> out.entities[k] == es[k])
      && out.entities[buyer].offers == es[buyer].offers
  {
    if res.budget.Some? && res.budget.value.id != 0 {
      ReleaseBudgetInFrame(es, buyer, res.budget.value.id);
      var b := ReleaseBudgetIn(es, buyer, res.budget.value.id);
      if b.result.Ok? && res.storage.id != 0 {
        ReleaseStorageInFrame(b.entities, buyer, res.storage.id);
        ShapesKeptTransitive(es, b.entities, ReleaseStorageIn(b.entities, buyer, res.storage.id).entities);
      }
    } else if res.storage.id != 0 {
      ReleaseStorageInFrame(es, buyer, res.storage.id);
    }
  }

  lemma ReserveRunKeepsWorld(es: map<EntityId, Entity>, ship: EntityId, buyer: EntityId, seller: EntityId,
                             forBuyer: TransactionInput, forSeller: TransactionInput, time: int)
    requires WorldValid(es) && ship in es && IsShip(es[ship])
    requires buyer in es && IsTrader(es[buyer]) && seller in es && IsTrader(es[seller])
    ensures var out := ReserveRunIn(es, ship, buyer, seller, forBuyer, forSeller, time);
      WorldValid(out.entities) && out.entities.Keys == es.Keys
  {
    AllocateKeepsWorld(es, buyer, forBuyer, time);
    AllocateShape(es, buyer, forBuyer, time);
    var a := AllocateIn(es, buyer, forBuyer, time);
    if a.result.Ok? && a.result.value.Some? {
      SellerStageKeepsWorld(a.entities, ship, es[ship].dockedIn, buyer, seller, forBuyer, forSeller, a.result.value.value, time);
    }
  }

  lemma SellerStageKeepsWorld(es: map<EntityId, Entity>, ship: EntityId, docked: Option<EntityId>, buyer: EntityId, seller: EntityId,
                              forBuyer: TransactionInput, forSeller: TransactionInput, res: Reservation, time: int)
    requires WorldValid(es) && ship in es && IsShip(es[ship])
    requires buyer in es && IsTrader(es[buyer]) && seller in es && IsTrader(es[seller])
    ensures var out := SellerStageIn(es, ship, docked, buyer, seller, forBuyer, forSeller, res, time);
      WorldValid(out.entities) && out.entities.Keys == es.Keys
  {
    AllocateKeepsWorld(es, seller, forSeller, time);
    AllocateShape(es, seller, forSeller, time);
    var b := AllocateIn(es, seller, forSeller, time);
    if b.result.Ok? && b.result.value.None? {
      RollbackKeepsWorld(b.entities, buyer, res);
    } else if b.result.Ok? {
      var steps := RunSteps(ship, docked, buyer, seller, forBuyer, forSeller, res, b.result.value.value);
      if steps.Ok? {
        QueueGroupKeeps(b.entities, ship, steps.value);
      }
    }
  }

  /** `tradeCommodity` keeps every ledger valid and every offer table
      total, and adds or drops no entity. */
  lemma TradeCommodityKeepsWorld(es: map<EntityId, Entity>, ship: EntityId, c: Commodity, buyer: EntityId, seller: EntityId, time: int)
    requires WorldValid(es) && ship in es && IsShip(es[ship])
    requires buyer in es && IsTrader(es[buyer]) && seller in es && IsTrader(es[seller])
    ensures var out := TradeCommodityIn(es, ship, c, buyer, seller, time);
      WorldValid(out.entities) && out.entities.Keys == es.Keys
  {
    var holder := Holder(es[ship]);
    if holder in es && es[holder].budget.Some? && RunQuantity(es, ship, c, buyer, seller).Sized? {
      var q := RunQuantity(es, ship, c, buyer, seller).quantity;
      ReserveRunKeepsWorld(es, ship, buyer, seller, RunInput(es, ship, c, buyer, q, Sell), RunInput(es, ship, c, seller, q, Buy), time);
    }
  }

  /** `tradeCommodity`: size the run; give up, reserving nothing, when it
      comes to nothing or the holder cannot pay the seller; reserve at the
      buyer, then at the seller, undoing the buyer's reservations when the
      seller refuses; then queue one `trade` group of steps on the ship. */
  method TradeCommodity(sim: Sim, ship: EntityId, c: Commodity, buyer: EntityId, seller: EntityId) returns (r: Result<bool>)
    requires sim.Valid() && ship in sim.entities && IsShip(sim.entities[ship])
    requires buyer in sim.entities && IsTrader(sim.entities[buyer])
    requires seller in sim.entities && IsTrader(sim.entities[seller])
    modifies sim`entities
    ensures Outcome(r, sim.entities) == TradeCommodityIn(old(sim.entities), ship, c, buyer, seller, sim.time)
    ensures sim.Valid()
  {
    var es := sim.entities;
    TradeCommodityKeepsWorld(es, ship, c, buyer, seller, sim.time);
    var holder := Holder(es[ship]);
    if holder !in es {
      return Err(EntityNotFound);
    }
    if es[holder].budget.None? {
      return Err(MissingComponent);
    }
    var sizing := RunQuantity(es, ship, c, buyer, seller);
    if sizing.NotANumber? {
      return NotANumberRun(es[buyer].offers.value[c]);
    }
    var q := sizing.quantity;
    var forBuyer := RunInput(es, ship, c, buyer, q, Sell);
    var forSeller := RunInput(es, ship, c, seller, q, Buy);
    if q == 0 || forSeller.price * q > Available(es[holder].budget.value) {
      return Ok(false);
    }
    r := ReserveRun(sim, ship, buyer, seller, forBuyer, forSeller);
  }

  /** The reserving part of a run (see `ReserveRunIn`). */
  method ReserveRun(sim: Sim, ship: EntityId, buyer: EntityId, seller: EntityId,
                    forBuyer: TransactionInput, forSeller: TransactionInput) returns (r: Result<bool>)
    requires sim.Valid() && ship in sim.entities && IsShip(sim.entities[ship])
    requires buyer in sim.entities && IsTrader(sim.entities[buyer])
    requires seller in sim.entities && IsTrader(sim.entities[seller])
    modifies sim`entities
    ensures Outcome(r, sim.entities) == ReserveRunIn(old(sim.entities), ship, buyer, seller, forBuyer, forSeller, sim.time)
  {
    var es := sim.entities;
    AllocateShape(es, buyer, forBuyer, sim.time);
    var atBuyer := Allocate(sim, buyer, forBuyer);
    if atBuyer.Err? {
      return Err(atBuyer.error);
    }
    if atBuyer.value.None? {
      return Ok(false);
    }
    r := SellerStage(sim, ship, es[ship].dockedIn, buyer, seller, forBuyer, forSeller, atBuyer.value.value);
  }

  /** The seller's half of a run (see `SellerStageIn`). */
  method SellerStage(sim: Sim, ship: EntityId, docked: Option<EntityId>, buyer: EntityId, seller: EntityId,
                     forBuyer: TransactionInput, forSeller: TransactionInput, res: Reservation) returns (r: Result<bool>)
    requires sim.Valid() && ship in sim.entities && IsShip(sim.entities[ship])
    requires buyer in sim.entities && IsTrader(sim.entities[buyer])
    requires seller in sim.entities && IsTrader(sim.entities[seller])
    modifies sim`entities
    ensures Outcome(r, sim.entities) == SellerStageIn(old(sim.entities), ship, docked, buyer, seller, forBuyer, forSeller, res, sim.time)
  {
    AllocateShape(sim.entities, seller, forSeller, sim.time);
    var atSeller := Allocate(sim, seller, forSeller);
    if atSeller.Err? {
      return Err(atSeller.error);
    }
    if atSeller.value.None? {
      r := Rollback(sim, buyer, res);
      return;
    }
    var steps := RunSteps(ship, docked, buyer, seller, forBuyer, forSeller, res, atSeller.value.value);
    if steps.Err? {
      return Err(steps.error);
    }
    sim.entities := QueueGroup(sim.entities, ship, steps.value);
    r := Ok(true);
  }

  /** Release the buyer's reservations of a run the seller refused. */
  method Rollback(sim: Sim, buyer: EntityId, res: Reservation) returns (r: Result<bool>)
    requires buyer in sim.entities && IsTrader(sim.entities[buyer]) && WellFormed(sim.entities[buyer])
    modifies sim`entities
    ensures Outcome(r, sim.entities) == RollbackIn(old(sim.entities), buyer, res)
  {
    if res.budget.Some? && res.budget.value.id != 0 {
      var released := ReleaseBudgetAllocation(sim.entities[buyer].budget.value, res.budget.value.id);
      if released.Err? {
        return Err(released.error);
      }
      sim.entities := sim.entities[buyer := sim.entities[buyer].(budget := Some(released.value.0))];
    }
    if res.storage.id != 0 {
      var released := ReleaseStorageAllocation(sim.entities[buyer].storage.value, res.storage.id);
      if released.Err? {
        return Err(released.error);
      }
      sim.entities := sim.entities[buyer := sim.entities[buyer].(storage := Some(released.value.0))];
    }
    r := Ok(false);
  }

  /** Releasing a reservation that was appended last restores the buyer's
      ledger as it was before it. */
  lemma RollbackRestores(es: map<EntityId, Entity>, buyer: EntityId, res: Reservation,
                         budgetBefore: seq<BudgetAllocation>, storageBefore: seq<StorageAllocation>)
    requires buyer in es && IsTrader(es[buyer]) && WellFormed(es[buyer])
    requires es[buyer].storage.value.allocations == storageBefore + [res.storage] && !HasId(storageBefore, res.storage.id)
    requires res.budget.Some? ==>
               es[buyer].budget.value.allocations == budgetBefore + [res.budget.value] && !HasId(budgetBefore, res.budget.value.id)
    ensures var out := RollbackIn(es, buyer, res);
      && out.result == Ok(false)
      && out.entities[buyer].storage.value.allocations == storageBefore
      && out.entities[buyer].storage.value.stored == es[buyer].storage.value.stored
      && out.entities[buyer].budget.value.money == es[buyer].budget.value.money
      && (res.budget.Some? ==> out.entities[buyer].budget.value.allocations == budgetBefore)
      && (res.budget.None? ==> out.entities[buyer].budget == es[buyer].budget)
  {
    var s := es[buyer].storage.value;
    assert s.allocations[|storageBefore|] == res.storage;
    var b := es;
    if res.budget.Some? {
      assert es[buyer].budget.value.allocations[|budgetBefore|] == res.budget.value;
      BudgetReleaseAppended(es[buyer].budget.value, budgetBefore, res.budget.value);
      b := ReleaseBudgetIn(es, buyer, res.budget.value.id).entities;
    }
    StorageReleaseAppended(b[buyer].storage.value, storageBefore, res.storage);
  }

  /** Reserving at the buyer and rolling back right away gives the buyer's
      ledgers back; only its offer stays decremented. */
  lemma AllocateThenRollback(es: map<EntityId, Entity>, buyer: EntityId, input: TransactionInput, time: int)
    requires WorldValid(es) && buyer in es && IsTrader(es[buyer]) && input.kind == Sell
    requires AllocateIn(es, buyer, input, time).result.Ok? && AllocateIn(es, buyer, input, time).result.value.Some?
    ensures var a := AllocateIn(es, buyer, input, time);
      && buyer in a.entities && IsTrader(a.entities[buyer]) && WellFormed(a.entities[buyer])
      && var out := RollbackIn(a.entities, buyer, a.result.value.value);
      && out.result == Ok(false)
      && ShapesKept(out.entities, es)
      && (forall k :: k in es && k != buyer ==> out.entities[k] == es[k])
      && out.entities[buyer].budget.value.allocations == es[buyer].budget.value.allocations
      && out.entities[buyer].budget.value.money == es[buyer].budget.value.money
      && out.entities[buyer].storage.value.allocations == es[buyer].storage.value.allocations
      && out.entities[buyer].storage.value.stored == es[buyer].storage.value.stored
      && out.entities[buyer].offers == Some(Decremented(es[buyer].offers.value, input))
  {
    AllocateKeepsWorld(es, buyer, input, time);
    AllocateShape(es, buyer, input, time);
    AllocateRefusal(es, buyer, input, time);
    AllocateReservations(es, buyer, input, time);
    var a := AllocateIn(es, buyer, input, time);
    var res := a.result.value.value;
    RollbackRestores(a.entities, buyer, res, es[buyer].budget.value.allocations, es[buyer].storage.value.allocations);
    RollbackFrame(a.entities, buyer, res);
    ShapesKeptTransitive(es, a.entities, RollbackIn(a.entities, buyer, res).entities);
  }

  /** A run that comes back false has reserved nothing: every entity but the
      buyer is as it was, and so are the buyer's reservations and money and
      stock; at most the buyer's offer has shrunk by the run's quantity,
      since the rollback does not restore it. */
  lemma ReserveRunFalse(es: map<EntityId, Entity>, ship: EntityId, buyer: EntityId, seller: EntityId,
                        forBuyer: TransactionInput, forSeller: TransactionInput, time: int)
    requires WorldValid(es) && ship in es && IsShip(es[ship])
    requires buyer in es && IsTrader(es[buyer]) && seller in es && IsTrader(es[seller])
    requires forBuyer.kind == Sell
    ensures var out := ReserveRunIn(es, ship, buyer, seller, forBuyer, forSeller, time);
      out.result == Ok(false) ==>
        && ShapesKept(out.entities, es)
        && (forall k :: k in es && k != buyer ==> out.entities[k] == es[k])
        && out.entities[buyer].budget.value.allocations == es[buyer].budget.value.allocations
        && out.entities[buyer].budget.value.money == es[buyer].budget.value.money
        && out.entities[buyer].storage.value.allocations == es[buyer].storage.value.allocations
        && out.entities[buyer].storage.value.stored == es[buyer].storage.value.stored
        && (out.entities[buyer].offers == es[buyer].offers
            || out.entities[buyer].offers == Some(Decremented(es[buyer].offers.value, forBuyer)))
  {
    var out := ReserveRunIn(es, ship, buyer, seller, forBuyer, forSeller, time);
    AllocateRefusal(es, buyer, forBuyer, time);
    var a := AllocateIn(es, buyer, forBuyer, time);
    if a.result.Ok? && a.result.value.Some? && out.result == Ok(false) {
      AllocateKeepsWorld(es, buyer, forBuyer, time);
      AllocateShape(es, buyer, forBuyer, time);
      SellerStageFalse(a.entities, ship, es[ship].dockedIn, buyer, seller, forBuyer, forSeller, a.result.value.value, time);
      AllocateThenRollback(es, buyer, forBuyer, time);
    }
  }

  /** The seller's half reports false only when the seller refused, and is
      then the rollback of the buyer's reservation. */
  lemma SellerStageFalse(es: map<EntityId, Entity>, ship: EntityId, docked: Option<EntityId>, buyer: EntityId, seller: EntityId,
                         forBuyer: TransactionInput, forSeller: TransactionInput, res: Reservation, time: int)
    requires WorldValid(es) && ship in es && IsShip(es[ship])
    requires buyer in es && IsTrader(es[buyer]) && seller in es && IsTrader(es[seller])
    ensures var out := SellerStageIn(es, ship, docked, buyer, seller, forBuyer, forSeller, res, time);
      out.result == Ok(false) ==> out == RollbackIn(es, buyer, res)
  {
    AllocateRefusal(es, seller, forSeller, time);
  }

  /** A `tradeCommodity` that returns false has reserved nothing (see
      `ReserveRunFalse`): only the buyer's offer may have shrunk. */
  lemma TradeCommodityFalseReservesNothing(es: map<EntityId, Entity>, ship: EntityId, c: Commodity, buyer: EntityId, seller: EntityId, time: int)
    requires WorldValid(es) && ship in es && IsShip(es[ship])
    requires buyer in es && IsTrader(es[buyer]) && seller in es && IsTrader(es[seller])
    ensures var out := TradeCommodityIn(es, ship, c, buyer, seller, time);
      out.result == Ok(false) ==>
        && ShapesKept(out.entities, es)
        && (forall k :: k in es && k != buyer ==> out.entities[k] == es[k])
        && out.entities[buyer].budget.value.allocations == es[buyer].budget.value.allocations
        && out.entities[buyer].storage.value.allocations == es[buyer].storage.value.allocations
        && out.entities[buyer].storage.value.stored == es[buyer].storage.value.stored
        && (out.entities[buyer].offers == es[buyer].offers
            || (Holder(es[ship]) in es && es[Holder(es[ship])].budget.Some? && RunQuantity(es, ship, c, buyer, seller).Sized?
                && out.entities[buyer].offers
                   == Some(Decremented(es[buyer].offers.value,
                                       RunInput(es, ship, c, buyer, RunQuantity(es, ship, c, buyer, seller).quantity, Sell)))))
  {
    var holder := Holder(es[ship]);
    if holder in es && es[holder].budget.Some? && RunQuantity(es, ship, c, buyer, seller).Sized? {
      var q := RunQuantity(es, ship, c, buyer, seller).quantity;
      ReserveRunFalse(es, ship, buyer, seller, RunInput(es, ship, c, buyer, q, Sell), RunInput(es, ship, c, seller, q, Buy), time);
    }
  }

  /** The shape of the group a run queues: approach the seller unless
      docked there, buy `q` there, move to the buyer, dock, sell `q` there. */
  predicate RunGroup(g: OrderGroup, ship: EntityId, docked: Option<EntityId>, buyer: EntityId, seller: EntityId, q: int)
  {
    var n := |Approach(ship, docked, seller)|;
    && |g.steps| == n + 4 && g.steps[..n] == Approach(ship, docked, seller)
    && g.steps[n].Trade? && g.steps[n].order.TradeOrder? && g.steps[n].order.target == seller
    && g.steps[n].order.offer.kind == Buy && g.steps[n].order.offer.quantity == q
    && g.steps[n + 1] == MoveTo(seller, buyer) && g.steps[n + 2] == Dock(buyer)
    && g.steps[n + 3].Trade? && g.steps[n + 3].order.TradeOrder? && g.steps[n + 3].order.target == buyer
    && g.steps[n + 3].order.offer.kind == Sell && g.steps[n + 3].order.offer.quantity == q
  }

  lemma ReserveRunOrders(es: map<EntityId, Entity>, ship: EntityId, buyer: EntityId, seller: EntityId,
                         forBuyer: TransactionInput, forSeller: TransactionInput, time: int)
    requires WorldValid(es) && ship in es && IsShip(es[ship])
    requires buyer in es && IsTrader(es[buyer]) && seller in es && IsTrader(es[seller])
    requires forBuyer.kind == Sell && forSeller.kind == Buy && forBuyer.quantity == forSeller.quantity
    ensures var out := ReserveRunIn(es, ship, buyer, seller, forBuyer, forSeller, time);
      && ship in out.entities && out.entities[ship].orders.Some?
      && var before := es[ship].orders.value;
      && var after := out.entities[ship].orders.value;
      && (out.result == Ok(true) ==>
            |after| == |before| + 1 && after[..|before|] == before
            && RunGroup(after[|before|], ship, es[ship].dockedIn, buyer, seller, forBuyer.quantity))
      && (out.result != Ok(true) ==> after == before)
  {
    AllocateKeepsWorld(es, buyer, forBuyer, time);
    AllocateShape(es, buyer, forBuyer, time);
    var a := AllocateIn(es, buyer, forBuyer, time);
    if a.result.Ok? && a.result.value.Some? {
      SellerStageOrders(a.entities, ship, es[ship].dockedIn, buyer, seller, forBuyer, forSeller, a.result.value.value, time);
    }
  }

  /** The seller's half appends one run group when it reports true and
      leaves the ship's orders alone otherwise. */
  lemma SellerStageOrders(es: map<EntityId, Entity>, ship: EntityId, docked: Option<EntityId>, buyer: EntityId, seller: EntityId,
                          forBuyer: TransactionInput, forSeller: TransactionInput, res: Reservation, time: int)
    requires WorldValid(es) && ship in es && IsShip(es[ship])
    requires buyer in es && IsTrader(es[buyer]) && seller in es && IsTrader(es[seller])
    requires forBuyer.kind == Sell && forSeller.kind == Buy && forBuyer.quantity == forSeller.quantity
    ensures var out := SellerStageIn(es, ship, docked, buyer, seller, forBuyer, forSeller, res, time);
      && ship in out.entities && out.entities[ship].orders.Some?
      && var before := es[ship].orders.value;
      && var after := out.entities[ship].orders.value;
      && (out.result == Ok(true) ==>
            |after| == |before| + 1 && after[..|before|] == before
            && RunGroup(after[|before|], ship, docked, buyer, seller, forBuyer.quantity))
      && (out.result != Ok(true) ==> after == before)
  {
    AllocateKeepsWorld(es, seller, forSeller, time);
    AllocateShape(es, seller, forSeller, time);
    var b := AllocateIn(es, seller, forSeller, time);
    if b.result.Ok? && b.result.value.None? {
      RollbackFrame(b.entities, buyer, res);
      ShapesKeptTransitive(es, b.entities, RollbackIn(b.entities, buyer, res).entities);
    }
  }

  /** `tradeCommodity` queues exactly one `trade` group when it returns
      true, shaped as `RunGroup` for the sized quantity, and leaves the
      ship's orders alone otherwise. */
  lemma TradeCommodityOrders(es: map<EntityId, Entity>, ship: EntityId, c: Commodity, buyer: EntityId, seller: EntityId, time: int)
    requires WorldValid(es) && ship in es && IsShip(es[ship])
    requires buyer in es && IsTrader(es[buyer]) && seller in es && IsTrader(es[seller])
    ensures var out := TradeCommodityIn(es, ship, c, buyer, seller, time);
      && ship in out.entities && out.entities[ship].orders.Some?
      && var before := es[ship].orders.value;
      && var after := out.entities[ship].orders.value;
      && (out.result == Ok(true) ==>
            && Holder(es[ship]) in es && es[Holder(es[ship])].budget.Some?
            && RunQuantity(es, ship, c, buyer, seller).Sized?
            && var q := RunQuantity(es, ship, c, buyer, seller).quantity;
            && q > 0 && |after| == |before| + 1 && after[..|before|] == before
            && RunGroup(after[|before|], ship, es[ship].dockedIn, buyer, seller, q))
      && (out.result != Ok(true) ==> after == before)
  {
    var holder := Holder(es[ship]);
    if holder in es && es[holder].budget.Some? && RunQuantity(es, ship, c, buyer, seller).Sized? {
      var q := RunQuantity(es, ship, c, buyer, seller).quantity;
      var forBuyer := RunInput(es, ship, c, buyer, q, Sell);
      var forSeller := RunInput(es, ship, c, seller, q, Buy);
      ReserveRunOrders(es, ship, buyer, seller, forBuyer, forSeller, time);
      if q != 0 && forSeller.price * q <= Available(es[holder].budget.value) {
        assert TradeCommodityIn(es, ship, c, buyer, seller, time) == ReserveRunIn(es, ship, buyer, seller, forBuyer, forSeller, time);
      }
    }
  }

  // ---------------------------------------------------------------------------
  // `returnToFacility`

  /** Whether a ship brings `c` home: it carries some, and its commander
      still takes some. */
  predicate GoesHome(es: map<EntityId, Entity>, ship: EntityId, cmd: EntityId, c: Commodity)
  {
    && ship in es && es[ship].storage.Some? && Total(es[ship].storage.value.stored)
    && AvailableWares(es[ship].storage.value, c) > 0
    && cmd in es && es[cmd].offers.Some? && c in es[cmd].offers.value
    && es[cmd].offers.value[c].quantity > 0
  }

  /** The free sale of `c` a ship offers its commander: as much as it carries,
      up to what the commander takes. */
  function HomeInput(es: map<EntityId, Entity>, ship: EntityId, cmd: EntityId, c: Commodity): (input: TransactionInput)
    requires ship in es && IsShip(es[ship]) && WellFormed(es[ship])
    requires cmd in es && IsTrader(es[cmd]) && WellFormed(es[cmd])
    ensures input.kind == Sell && input.price == 0 && input.budget.None? && input.commodity == c
    ensures input.quantity <= AvailableWares(es[ship].storage.value, c)
    ensures input.quantity <= es[cmd].offers.value[c].quantity
    ensures input.initiator == ship && input.factionId == es[ship].owner
  {
    TransactionInput(c, Sell, LimitMax(AvailableWares(es[ship].storage.value, c), es[cmd].offers.value[c].quantity),
                     0, es[ship].owner, ship, None, None)
  }

  /** The reservation ids a sale home carries: the commander's storage
      reservation on the buyer side, nothing else. */
  function HomeAllocations(res: Reservation): TradeAllocations
  {
    TradeAllocations(AllocationRefs(None, Some(res.storage.id)), AllocationRefs(None, None))
  }

  /** A trade step that sells to `cmd` for free. */
  predicate HomeSale(step: Step, cmd: EntityId)
  {
    && step.Trade? && step.order.TradeOrder? && step.order.target == cmd
    && step.order.offer.kind == Sell && step.order.offer.price == 0
    && step.order.offer.budget.None? && step.order.offer.quantity > 0
  }

  /** The sale home of one commodity: appended to `steps` when the
      commander reserves it. */
  function HomeStep(es: map<EntityId, Entity>, ship: EntityId, cmd: EntityId, c: Commodity, time: int, steps: seq<Step>)
    : (out: Outcome<seq<Step>>)
    requires WorldValid(es) && ship in es && IsShip(es[ship]) && cmd in es && IsTrader(es[cmd])
  {
    var input := HomeInput(es, ship, cmd, c);
    var a := AllocateIn(es, cmd, input, time);
    if a.result.Err? then Outcome(Err(a.result.error), a.entities)
    else if a.result.value.None? then Outcome(Ok(steps), a.entities)
    else
      match TradeOrderOf(input.(allocations := Some(HomeAllocations(a.result.value.value))), cmd)
      case Err(e) => Outcome(Err(e), a.entities)
      case Ok(o) => Outcome(Ok(steps + [Trade(o)]), a.entities)
  }

  lemma HomeStepKeepsWorld(es: map<EntityId, Entity>, ship: EntityId, cmd: EntityId, c: Commodity, time: int, steps: seq<Step>)
    requires WorldValid(es) && ship in es && IsShip(es[ship]) && cmd in es && IsTrader(es[cmd])
    ensures var out := HomeStep(es, ship, cmd, c, time, steps);
      && WorldValid(out.entities) && out.entities.Keys == es.Keys && ShapesKept(out.entities, es)
      && (forall k :: k in es ==> out.entities[k].budget == es[k].budget)
      && (out.result.Ok? ==> out.result.value == steps
                             || (|out.result.value| == |steps| + 1 && out.result.value[..|steps|] == steps
                                 && SaleOf(out.result.value[|steps|], cmd, c)))
  {
    var input := HomeInput(es, ship, cmd, c);
    AllocateKeepsWorld(es, cmd, input, time);
    AllocateShape(es, cmd, input, time);
    AllocateFreeKeepsBudgets(es, cmd, input, time);
    var a := AllocateIn(es, cmd, input, time);
    if a.result.Ok? && a.result.value.Some? {
      var o := TradeOrderOf(input.(allocations := Some(HomeAllocations(a.result.value.value))), cmd);
      if o.Ok? {
        assert (steps + [Trade(o.value)])[..|steps|] == steps;
      }
    }
  }

  /** The sales home of the commodities `cs`, one after the other, of those
      that go home judged on the entities `es0` as they were before any
      sale was reserved (the source filters the commodities first and then
      reserves each). */
  function ReturnFrom(es0: map<EntityId, Entity>, es: map<EntityId, Entity>, ship: EntityId, cmd: EntityId,
                      cs: seq<Commodity>, time: int, steps: seq<Step>)
    : (out: Outcome<seq<Step>>)
    requires WorldValid(es) && ship in es && IsShip(es[ship]) && cmd in es && IsTrader(es[cmd])
    ensures ship in out.entities && out.entities[ship].orders == es[ship].orders
    decreases |cs|
  {
    if cs == [] then Outcome(Ok(steps), es)
    else if !GoesHome(es0, ship, cmd, cs[0]) then ReturnFrom(es0, es, ship, cmd, cs[1..], time, steps)
    else
      HomeStepKeepsWorld(es, ship, cmd, cs[0], time, steps);
      var h := HomeStep(es, ship, cmd, cs[0], time, steps);
      if h.result.Err? then h
      else ReturnFrom(es0, h.entities, ship, cmd, cs[1..], time, h.result.value)
  }

  /** The sales home keep every ledger valid, every entity's shape and
      every budget. */
  lemma {:induction false} ReturnFromKeepsWorld(es0: map<EntityId, Entity>, es: map<EntityId, Entity>, ship: EntityId,
                                                cmd: EntityId, cs: seq<Commodity>, time: int, steps: seq<Step>)
    requires WorldValid(es) && ship in es && IsShip(es[ship]) && cmd in es && IsTrader(es[cmd])
    ensures var out := ReturnFrom(es0, es, ship, cmd, cs, time, steps);
      && WorldValid(out.entities) && out.entities.Keys == es.Keys && ShapesKept(out.entities, es)
      && (forall k :: k in es ==> out.entities[k].budget == es[k].budget)
    decreases |cs|
  {
    if cs != [] {
      if !GoesHome(es0, ship, cmd, cs[0]) {
        ReturnFromKeepsWorld(es0, es, ship, cmd, cs[1..], time, steps);
      } else {
        HomeStepKeepsWorld(es, ship, cmd, cs[0], time, steps);
        var h := HomeStep(es, ship, cmd, cs[0], time, steps);
        if h.result.Ok? {
          ReturnFromKeepsWorld(es0, h.entities, ship, cmd, cs[1..], time, h.result.value);
          ShapesKeptTransitive(es, h.entities, ReturnFrom(es0, h.entities, ship, cmd, cs[1..], time, h.result.value).entities);
        }
      }
    }
  }

  /** `step` is a free sale of `c` to `cmd`. */
  predicate SaleOf(step: Step, cmd: EntityId, c: Commodity)
  {
    HomeSale(step, cmd) && step.order.offer.commodity == c
  }

  /** `r` is `steps` followed by free sales to `cmd`, at most one per
      commodity of `cs`, each of a commodity of `cs` that goes home judged
      on `es0`. */
  predicate ExtendsWithSales(r: seq<Step>, steps: seq<Step>, cmd: EntityId, es0: map<EntityId, Entity>, ship: EntityId,
                             cs: seq<Commodity>)
  {
    && |steps| <= |r| <= |steps| + |cs| && r[..|steps|] == steps
    && forall i :: |steps| <= i < |r| ==>
         HomeSale(r[i], cmd) && r[i].order.offer.commodity in cs && GoesHome(es0, ship, cmd, r[i].order.offer.commodity)
  }

  lemma ExtendsWithSalesStep(r: seq<Step>, steps: seq<Step>, next: seq<Step>, cmd: EntityId, es0: map<EntityId, Entity>,
                             ship: EntityId, cs: seq<Commodity>)
    requires cs != [] && ExtendsWithSales(r, next, cmd, es0, ship, cs[1..])
    requires next == steps
             || (|next| == |steps| + 1 && next[..|steps|] == steps
                 && SaleOf(next[|steps|], cmd, cs[0]) && GoesHome(es0, ship, cmd, cs[0]))
    ensures ExtendsWithSales(r, steps, cmd, es0, ship, cs)
  {
    if next != steps {
      assert r[..|steps|] == next[..|steps|];
      assert r[|steps|] == next[|steps|];
    }
    forall x | x in cs[1..] ensures x in cs {
    }
  }

  /** The sales home only ever append free sales to the commander, at most
      one per commodity, each of a commodity that goes home. */
  lemma {:induction false} ReturnFromSteps(es0: map<EntityId, Entity>, es: map<EntityId, Entity>, ship: EntityId,
                                           cmd: EntityId, cs: seq<Commodity>, time: int, steps: seq<Step>)
    requires WorldValid(es) && ship in es && IsShip(es[ship]) && cmd in es && IsTrader(es[cmd])
    ensures var out := ReturnFrom(es0, es, ship, cmd, cs, time, steps);
      out.result.Ok? ==> ExtendsWithSales(out.result.value, steps, cmd, es0, ship, cs)
    decreases |cs|
  {
    if cs != [] {
      if !GoesHome(es0, ship, cmd, cs[0]) {
        ReturnFromSteps(es0, es, ship, cmd, cs[1..], time, steps);
        var r := ReturnFrom(es0, es, ship, cmd, cs[1..], time, steps).result;
        if r.Ok? {
          ExtendsWithSalesStep(r.value, steps, steps, cmd, es0, ship, cs);
        }
      } else {
        HomeStepKeepsWorld(es, ship, cmd, cs[0], time, steps);
        var h := HomeStep(es, ship, cmd, cs[0], time, steps);
        if h.result.Ok? {
          ReturnFromSteps(es0, h.entities, ship, cmd, cs[1..], time, h.result.value);
          var r := ReturnFrom(es0, h.entities, ship, cmd, cs[1..], time, h.result.value).result;
          if r.Ok? {
            ExtendsWithSalesStep(r.value, steps, h.result.value, cmd, es0, ship, cs);
          }
        }
      }
    }
  }

  /** A free reservation touches no budget. */
  lemma AllocateFreeKeepsBudgets(es: map<EntityId, Entity>, id: EntityId, input: TransactionInput, time: int)
    requires id in es && IsTrader(es[id]) && WellFormed(es[id]) && input.price == 0
    ensures var out := AllocateIn(es, id, input, time);
      forall k :: k in es ==> k in out.entities && out.entities[k].budget == es[k].budget
  {
    if IsTradeAccepted(es[id], input) == Ok(true) {
      var es1 := es[id := es[id].(offers := Some(Decremented(es[id].offers.value, input)))];
      ReserveStorageInFrame(es1, id, StorageNeed(input), time, TradeIdOf(id, input, time));
    }
  }

  /** `returnToFacility(ship)` on the entities `es` at time `time`. */
  function ReturnToFacilityIn(es: map<EntityId, Entity>, ship: EntityId, time: int): (out: Outcome<()>)
    requires WorldValid(es) && ship in es && IsShip(es[ship]) && es[ship].commander.Some?
  {
    var cmd := es[ship].commander.value;
    if cmd !in es then Outcome(Err(EntityNotFound), es)
    else if !IsTrader(es[cmd]) then Outcome(Err(MissingComponent), es)
    else ReturnHomeIn(es, ship, cmd, time)
  }

  /** The sales home to an existing trading commander `cmd`, queued as one
      group when there is a step to take. */
  function ReturnHomeIn(es: map<EntityId, Entity>, ship: EntityId, cmd: EntityId, time: int): (out: Outcome<()>)
    requires WorldValid(es) && ship in es && IsShip(es[ship]) && cmd in es && IsTrader(es[cmd])
  {
    Enqueue(ReturnFrom(es, es, ship, cmd, AllCommodities, time, Approach(ship, es[ship].dockedIn, cmd)), ship)
  }

  /** Queue the steps `r` computed for `ship`, unless they failed or are none. */
  function Enqueue(r: Outcome<seq<Step>>, ship: EntityId): (out: Outcome<()>)
    requires ship in r.entities && r.entities[ship].orders.Some?
  {
    if r.result.Err? then Outcome(Err(r.result.error), r.entities)
    else if |r.result.value| == 0 then Outcome(Ok(()), r.entities)
    else Outcome(Ok(()), QueueGroup(r.entities, ship, r.result.value))
  }

  /** The entities with `steps` queued as one more order group of `ship`. */
  function QueueGroup(es: map<EntityId, Entity>, ship: EntityId, steps: seq<Step>): map<EntityId, Entity>
    requires ship in es && es[ship].orders.Some?
  {
    es[ship := es[ship].(orders := Some(es[ship].orders.value + [TradeGroup(steps)]))]
  }

  /** Queueing an order group changes no ledger and no other component. */
  lemma QueueGroupKeeps(es: map<EntityId, Entity>, ship: EntityId, steps: seq<Step>)
    requires ship in es && es[ship].orders.Some?
    ensures var out := QueueGroup(es, ship, steps);
      && out.Keys == es.Keys
      && (WorldValid(es) ==> WorldValid(out))
      && (forall k :: k in es ==> out[k].budget == es[k].budget)
      && (forall k :: k in es && k != ship ==> out[k] == es[k])
      && out[ship].orders.value == es[ship].orders.value + [TradeGroup(steps)]
  {
  }

  /** `returnToFacility`: send a ship to its commander with every commodity
      the commander still takes, sold for free; the group is queued only
      when it holds a step. */
  method ReturnToFacility(sim: Sim, ship: EntityId) returns (r: Result<()>)
    requires sim.Valid() && ship in sim.entities && IsShip(sim.entities[ship])
    requires sim.entities[ship].commander.Some?
    modifies sim`entities
    ensures Outcome(r, sim.entities) == ReturnToFacilityIn(old(sim.entities), ship, sim.time)
    ensures sim.Valid()
  {
    var cmd := sim.entities[ship].commander.value;
    if cmd !in sim.entities {
      return Err(EntityNotFound);
    }
    if !IsTrader(sim.entities[cmd]) {
      return Err(MissingComponent);
    }
    ReturnHomeEffect(sim.entities, ship, cmd, sim.time);
    r := ReturnHome(sim, ship, cmd);
  }

  /** The loop of `returnToFacility` and the final push of the group. */
  method ReturnHome(sim: Sim, ship: EntityId, cmd: EntityId) returns (r: Result<()>)
    requires sim.Valid() && ship in sim.entities && IsShip(sim.entities[ship])
    requires cmd in sim.entities && IsTrader(sim.entities[cmd])
    modifies sim`entities
    ensures Outcome(r, sim.entities) == ReturnHomeIn(old(sim.entities), ship, cmd, sim.time)
  {
    var es0 := sim.entities;
    var prefix := Approach(ship, es0[ship].dockedIn, cmd);
    var steps := SellAllHome(sim, ship, cmd, es0, AllCommodities, prefix);
    r := PushGroup(sim, ship, steps);
  }

  /** The end of `returnToFacility`: queue the computed steps, if any. */
  method PushGroup(sim: Sim, ship: EntityId, steps: Result<seq<Step>>) returns (r: Result<()>)
    requires ship in sim.entities && sim.entities[ship].orders.Some?
    modifies sim`entities
    ensures Outcome(r, sim.entities) == Enqueue(Outcome(steps, old(sim.entities)), ship)
  {
    if steps.Err? {
      return Err(steps.error);
    }
    if |steps.value| > 0 {
      sim.entities := QueueGroup(sim.entities, ship, steps.value);
    }
    r := Ok(());
  }

  /** The loop of `returnToFacility`: the sales home of `cs`, appended to `steps`. */
  method SellAllHome(sim: Sim, ship: EntityId, cmd: EntityId, es0: map<EntityId, Entity>, cs: seq<Commodity>,
                     steps: seq<Step>)
    returns (r: Result<seq<Step>>)
    requires sim.Valid() && ship in sim.entities && IsShip(sim.entities[ship])
    requires cmd in sim.entities && IsTrader(sim.entities[cmd])
    modifies sim`entities
    ensures ship in sim.entities && IsShip(sim.entities[ship])
    ensures Outcome(r, sim.entities) == ReturnFrom(es0, old(sim.entities), ship, cmd, cs, sim.time, steps)
  {
    ghost var goal := ReturnFrom(es0, sim.entities, ship, cmd, cs, sim.time, steps);
    var acc := steps;
    var i := 0;
    while i < |cs|
      invariant 0 <= i <= |cs|
      invariant sim.Valid() && ship in sim.entities && IsShip(sim.entities[ship])
      invariant cmd in sim.entities && IsTrader(sim.entities[cmd])
      invariant ReturnFrom(es0, sim.entities, ship, cmd, cs[i..], sim.time, acc) == goal
    {
      assert cs[i..][0] == cs[i] && cs[i..][1..] == cs[i + 1..];
      if GoesHome(es0, ship, cmd, cs[i]) {
        HomeStepKeepsWorld(sim.entities, ship, cmd, cs[i], sim.time, acc);
        var h := SellHome(sim, ship, cmd, cs[i], acc);
        if h.Err? {
          return Err(h.error);
        }
        acc := h.value;
      }
      i := i + 1;
    }
    r := Ok(acc);
  }

  /** One iteration of `returnToFacility`'s loop (see `HomeStep`). */
  method SellHome(sim: Sim, ship: EntityId, cmd: EntityId, c: Commodity, steps: seq<Step>) returns (r: Result<seq<Step>>)
    requires sim.Valid() && ship in sim.entities && IsShip(sim.entities[ship])
    requires cmd in sim.entities && IsTrader(sim.entities[cmd])
    modifies sim`entities
    ensures Outcome(r, sim.entities) == HomeStep(old(sim.entities), ship, cmd, c, steps := steps, time := sim.time)
  {
    var input := HomeInput(sim.entities, ship, cmd, c);
    var a := Allocate(sim, cmd, input);
    if a.Err? {
      return Err(a.error);
    }
    if a.value.None? {
      return Ok(steps);
    }
    var order := TradeOrderOf(input.(allocations := Some(HomeAllocations(a.value.value))), cmd);
    if order.Err? {
      return Err(order.error);
    }
    r := Ok(steps + [Trade(order.value)]);
  }

  /** Queueing keeps every ledger and every budget; it appends exactly one
      group when the steps were computed and are not empty, and changes
      nothing otherwise. */
  lemma EnqueueEffect(r: Outcome<seq<Step>>, ship: EntityId)
    requires ship in r.entities && r.entities[ship].orders.Some?
    ensures var out := Enqueue(r, ship);
      && out.entities.Keys == r.entities.Keys
      && (WorldValid(r.entities) ==> WorldValid(out.entities))
      && (forall k :: k in r.entities ==> out.entities[k].budget == r.entities[k].budget)
      && out.entities[ship].orders.Some?
      && (out.result.Ok? <==> r.result.Ok?)
      && (r.result.Err? || |r.result.value| == 0 ==> out.entities == r.entities)
      && (r.result.Ok? && |r.result.value| > 0 ==>
            out.entities[ship].orders.value == r.entities[ship].orders.value + [TradeGroup(r.result.value)])
  {
    if r.result.Ok? && |r.result.value| > 0 {
      QueueGroupKeeps(r.entities, ship, r.result.value);
    }
  }

  /** Returning home to an existing trading commander keeps every ledger
      valid and every budget, and queues at most one group: when the ship is
      not docked at its commander always, starting by moving and docking
      there; then only free sales to the commander, at most one per
      commodity the ship carries and the commander takes. A failure queues
      nothing. */
  lemma ReturnHomeEffect(es: map<EntityId, Entity>, ship: EntityId, cmd: EntityId, time: int)
    requires WorldValid(es) && ship in es && IsShip(es[ship]) && cmd in es && IsTrader(es[cmd])
    ensures var out := ReturnHomeIn(es, ship, cmd, time);
      && WorldValid(out.entities) && out.entities.Keys == es.Keys
      && (forall k :: k in es ==> out.entities[k].budget == es[k].budget)
      && IsShip(out.entities[ship])
      && var before := es[ship].orders.value;
      && var after := out.entities[ship].orders.value;
      && (out.result.Err? ==> after == before)
      && (out.result.Ok? ==>
            && (after == before
                || (|after| == |before| + 1 && after[..|before|] == before
                    && ExtendsWithSales(after[|before|].steps, Approach(ship, es[ship].dockedIn, cmd), cmd,
                                        es, ship, AllCommodities)))
            && (es[ship].dockedIn != Some(cmd) ==> after != before))
  {
    var prefix := Approach(ship, es[ship].dockedIn, cmd);
    ReturnFromKeepsWorld(es, es, ship, cmd, AllCommodities, time, prefix);
    ReturnFromSteps(es, es, ship, cmd, AllCommodities, time, prefix);
    var r := ReturnFrom(es, es, ship, cmd, AllCommodities, time, prefix);
    EnqueueEffect(r, ship);
    var after := Enqueue(r, ship).entities[ship].orders.value;
    if r.result.Ok? && |r.result.value| > 0 {
      assert after[..|es[ship].orders.value|] == es[ship].orders.value;
    }
  }

  /** `returnToFacility` keeps every ledger valid and costs nobody money; it
      queues what `ReturnHomeEffect` says when the commander exists and
      trades, and nothing otherwise. */
  lemma ReturnToFacilityEffect(es: map<EntityId, Entity>, ship: EntityId, time: int)
    requires WorldValid(es) && ship in es && IsShip(es[ship]) && es[ship].commander.Some?
    ensures var out := ReturnToFacilityIn(es, ship, time);
      && WorldValid(out.entities) && out.entities.Keys == es.Keys
      && (forall k :: k in es ==> out.entities[k].budget == es[k].budget)
      && var cmd := es[ship].commander.value;
      && (cmd !in es ==> out == Outcome(Err(EntityNotFound), es))
      && (cmd in es && !IsTrader(es[cmd]) ==> out == Outcome(Err(MissingComponent), es))
      && (cmd in es && IsTrader(es[cmd]) ==> out == ReturnHomeIn(es, ship, cmd, time))
  {
    var cmd := es[ship].commander.value;
    if cmd in es && IsTrader(es[cmd]) {
      ReturnHomeEffect(es, ship, cmd, time);
    }
  }

  // ---------------------------------------------------------------------------
  // `acceptTrade`

  /** The buyer's budget reservation a trade carries, `0` (falsy) when absent. */
  function BuyerBudgetId(input: TransactionInput): nat
  {
    if input.allocations.Some? && input.allocations.value.buyer.budget.Some?
    then input.allocations.value.buyer.budget.value else 0
  }

  /** Settle a payment: release `payer`'s budget reservation `aid`, then take
      its amount from `payer` and give it to `payee`, one after the other (so
      a payment to oneself changes no money). */
  function PayIn(es: map<EntityId, Entity>, payer: EntityId, payee: EntityId, aid: nat): (out: Outcome<()>)
    requires payer in es && es[payer].budget.Some? && payee in es && es[payee].budget.Some?
  {
    match ReleaseBudgetAllocation(es[payer].budget.value, aid)
    case Err(e) => Outcome(Err(e), es)
    case Ok((b, a)) => Outcome(Ok(()), Credited(es, payer, payee, b, a.amount))
  }

  /** The payer's budget becomes `b` less `amount`, then the payee's budget
      gains `amount`. */
  function Credited(es: map<EntityId, Entity>, payer: EntityId, payee: EntityId, b: Budget, amount: int)
    : map<EntityId, Entity>
    requires payer in es && payee in es && es[payee].budget.Some?
  {
    var es1 := es[payer := es[payer].(budget := Some(b.(money := b.money - amount)))];
    var to := es1[payee].budget.value;
    es1[payee := es1[payee].(budget := Some(to.(money := to.money + amount)))]
  }

  /** `acceptTrade(entity id, input)` without its journal entry: for a
      positive price with a truthy paying entity and a truthy buyer
      reservation, the reserved money moves from the buyer to the seller —
      from `id` to the counterparty when the requester sells, the other way
      otherwise. */
  function AcceptTradeIn(es: map<EntityId, Entity>, id: EntityId, input: TransactionInput): (out: Outcome<()>)
    requires id in es && IsTrader(es[id])
  {
    if input.price <= 0 || input.budget.None? || input.budget.value == 0 then Outcome(Ok(()), es)
    else
      var k := input.budget.value;
      if k !in es then Outcome(Err(EntityNotFound), es)
      else if es[k].budget.None? then Outcome(Err(MissingComponent), es)
      else if BuyerBudgetId(input) == 0 then Outcome(Ok(()), es)
      else if input.kind == Sell then PayIn(es, id, k, BuyerBudgetId(input))
      else PayIn(es, k, id, BuyerBudgetId(input))
  }

  /** A payment moves exactly the released reservation's amount: the payer
      loses it and no longer holds the reservation, the payee gains it, the
      payer's available money is unchanged, nobody else is touched and every
      ledger stays valid. It fails, changing nothing, when the payer holds
      no such reservation. */
  lemma PayInEffect(es: map<EntityId, Entity>, payer: EntityId, payee: EntityId, aid: nat)
    requires WorldValid(es) && payer in es && es[payer].budget.Some? && payee in es && es[payee].budget.Some?
    ensures var out := PayIn(es, payer, payee, aid);
      var before := es[payer].budget.value;
      var rel := ReleaseBudgetAllocation(before, aid);
      && (out.result.Err? <==> !HasId(before.allocations, aid))
      && (out.result.Err? ==> out == Outcome(Err(AllocationNotFound), es))
      && WorldValid(out.entities) && out.entities.Keys == es.Keys
      && (forall k :: k in es && k != payer && k != payee ==> out.entities[k] == es[k])
      && (out.result.Ok? ==>
            var amount := rel.value.1.amount;
            && amount >= 0
            && out.entities[payer].budget.Some? && out.entities[payee].budget.Some?
            && out.entities[payer].budget.value.allocations == rel.value.0.allocations
            && !HasId(out.entities[payer].budget.value.allocations, aid)
            && (payer != payee ==>
                  && out.entities[payer].budget.value.money == before.money - amount
                  && out.entities[payee].budget.value.money == es[payee].budget.value.money + amount
                  && Available(out.entities[payer].budget.value) == Available(before)
                  && out.entities[payee].budget.value.allocations == es[payee].budget.value.allocations)
            && (payer == payee ==> out.entities[payer].budget.value.money == before.money))
  {
    var before := es[payer].budget.value;
    var rel := ReleaseBudgetAllocation(before, aid);
    PayInKeepsWorld(es, payer, payee, aid);
    if rel.Ok? {
      var (b, a) := rel.value;
      assert a in before.allocations;
      var i :| 0 <= i < |before.allocations| && before.allocations[i] == a;
    }
  }

  /** Moving a non-negative amount out of a valid budget whose available
      money covers it, into another valid budget, keeps the world valid and
      touches nobody else. */
  lemma CreditedKeepsWorld(es: map<EntityId, Entity>, payer: EntityId, payee: EntityId, b: Budget, amount: int)
    requires WorldValid(es) && payer in es && payee in es && es[payee].budget.Some?
    requires ValidBudget(b) && 0 <= amount <= Available(b)
    ensures var out := Credited(es, payer, payee, b, amount);
      && WorldValid(out) && out.Keys == es.Keys
      && (forall k :: k in es && k != payer && k != payee ==> out[k] == es[k])
  {
    var paid := b.(money := b.money - amount);
    assert Available(paid) == Available(b) - amount;
    BudgetUpdateKeepsWorld(es, payer, paid);
    var es1 := es[payer := es[payer].(budget := Some(paid))];
    var to := es1[payee].budget.value;
    var got := to.(money := to.money + amount);
    assert Available(got) == Available(to) + amount;
    BudgetUpdateKeepsWorld(es1, payee, got);
  }

  /** A payment keeps every ledger valid and touches only payer and payee. */
  lemma PayInKeepsWorld(es: map<EntityId, Entity>, payer: EntityId, payee: EntityId, aid: nat)
    requires WorldValid(es) && payer in es && es[payer].budget.Some? && payee in es && es[payee].budget.Some?
    ensures var out := PayIn(es, payer, payee, aid);
      && WorldValid(out.entities) && out.entities.Keys == es.Keys
      && (forall k :: k in es && k != payer && k != payee ==> out.entities[k] == es[k])
  {
    var before := es[payer].budget.value;
    var rel := ReleaseBudgetAllocation(before, aid);
    if rel.Ok? {
      var (b, a) := rel.value;
      assert a in before.allocations;
      var i :| 0 <= i < |before.allocations| && before.allocations[i] == a;
      assert Available(b) == Available(before) + a.amount;
      CreditedKeepsWorld(es, payer, payee, b, a.amount);
    }
  }

  /** Replacing one entity's budget by a valid one keeps the world valid. */
  lemma BudgetUpdateKeepsWorld(es: map<EntityId, Entity>, k: EntityId, b: Budget)
    requires WorldValid(es) && k in es && ValidBudget(b)
    ensures WorldValid(es[k := es[k].(budget := Some(b))])
  {
    var out := es[k := es[k].(budget := Some(b))];
    forall j | j in out ensures WellFormed(out[j]) {
      if j != k {
        assert out[j] == es[j];
      }
    }
  }

  /** `acceptTrade` keeps every ledger valid; it moves money only for a
      positive price, a truthy paying entity and a truthy buyer reservation,
      and then exactly as `PayInEffect` says, from the buyer to the seller. */
  lemma AcceptTradeEffect(es: map<EntityId, Entity>, id: EntityId, input: TransactionInput)
    requires WorldValid(es) && id in es && IsTrader(es[id])
    ensures var out := AcceptTradeIn(es, id, input);
      && WorldValid(out.entities) && out.entities.Keys == es.Keys
      && (input.price <= 0 || input.budget.None? || input.budget.value == 0 || BuyerBudgetId(input) == 0
          ==> out.entities == es)
      && (out.result.Err? ==> out.entities == es)
      && (input.price > 0 && input.budget.Some? && input.budget.value != 0 ==>
            var k := input.budget.value;
            && (k !in es ==> out.result == Err(EntityNotFound))
            && (k in es && es[k].budget.None? ==> out.result == Err(MissingComponent))
            && (k in es && es[k].budget.Some? && BuyerBudgetId(input) != 0 ==>
                  out == if input.kind == Sell then PayIn(es, id, k, BuyerBudgetId(input))
                         else PayIn(es, k, id, BuyerBudgetId(input))))
  {
    if input.price > 0 && input.budget.Some? && input.budget.value != 0 {
      var k := input.budget.value;
      if k in es && es[k].budget.Some? && BuyerBudgetId(input) != 0 {
        if input.kind == Sell {
          PayInEffect(es, id, k, BuyerBudgetId(input));
        } else {
          PayInEffect(es, k, id, BuyerBudgetId(input));
        }
      }
    }
  }

  /** `acceptTrade(entity, input)` on the simulation. */
  method AcceptTrade(sim: Sim, id: EntityId, input: TransactionInput) returns (r: Result<()>)
    requires sim.Valid() && id in sim.entities && IsTrader(sim.entities[id])
    modifies sim`entities
    ensures Outcome(r, sim.entities) == AcceptTradeIn(old(sim.entities), id, input)
    ensures sim.Valid()
  {
    AcceptTradeEffect(sim.entities, id, input);
    if input.price <= 0 || input.budget.None? || input.budget.value == 0 {
      return Ok(());
    }
    var k := input.budget.value;
    if k !in sim.entities {
      return Err(EntityNotFound);
    }
    if sim.entities[k].budget.None? {
      return Err(MissingComponent);
    }
    var aid := BuyerBudgetId(input);
    if aid == 0 {
      return Ok(());
    }
    if input.kind == Sell {
      r := Pay(sim, id, k, aid);
    } else {
      r := Pay(sim, k, id, aid);
    }
  }

  /** `releaseBudgetAllocation` then `transferMoney`, as `PayIn`. */
  method Pay(sim: Sim, payer: EntityId, payee: EntityId, aid: nat) returns (r: Result<()>)
    requires payer in sim.entities && sim.entities[payer].budget.Some?
    requires payee in sim.entities && sim.entities[payee].budget.Some?
    modifies sim`entities
    ensures Outcome(r, sim.entities) == PayIn(old(sim.entities), payer, payee, aid)
  {
    var released := ReleaseBudgetAllocation(sim.entities[payer].budget.value, aid);
    if released.Err? {
      return Err(released.error);
    }
    var (b, a) := released.value;
    sim.entities := sim.entities[payer := sim.entities[payer].(budget := Some(b.(money := b.money - a.amount)))];
    var to := sim.entities[payee].budget.value;
    sim.entities := sim.entities[payee := sim.entities[payee].(budget := Some(to.(money := to.money + a.amount)))];
    r := Ok(());
  }
}
