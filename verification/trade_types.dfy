/** The trade component's vocabulary: a published offer per commodity and the
    transaction request exchanged between a trader and a facility. The
    component file itself is not part of this model; its shapes are taken
    from how the modelled code reads them. */
module TradeTypes {
  import opened Common
  import opened Ledger

  /** `TradeOffer`: what a facility publishes for one commodity. */
  datatype Offer = Offer(price: int, quantity: int, kind: OfferType)

  /** Ids of the reservations one side of a trade holds (`null` is `None`). */
  datatype AllocationRefs = AllocationRefs(budget: Option<nat>, storage: Option<nat>)

  datatype TradeAllocations = TradeAllocations(buyer: AllocationRefs, seller: AllocationRefs)

  /** `TransactionInput`: `kind` is the requester's side (`sell` = the
      requester sells to the facility), `budget` the id of the entity paying
      or being paid, `allocations` the reservations made for it. */
  datatype TransactionInput = TransactionInput(
    commodity: Commodity,
    kind: OfferType,
    quantity: int,
    price: int,
    factionId: EntityId,
    initiator: EntityId,
    budget: Option<EntityId>,
    allocations: Option<TradeAllocations>)

  /** `startingPrice`: the price of an offer published for the first time;
      its value lives in a file that is not part of this model. */
  const StartingPrice: int

  /** A live buy offer: the facility wants some of `c`. */
  predicate WantsToBuy(offers: map<Commodity, Offer>, c: Commodity)
  {
    c in offers && offers[c].kind == Buy && offers[c].quantity > 0
  }

  /** A live sell offer: the facility has some of `c` to give. */
  predicate WantsToSell(offers: map<Commodity, Offer>, c: Commodity)
  {
    c in offers && offers[c].kind == Sell && offers[c].quantity > 0
  }

  /** The commodities with a live buy offer, in commodity order. */
  function BuyOffered(offers: map<Commodity, Offer>): (r: seq<Commodity>)
    ensures forall c: Commodity :: c in r <==> WantsToBuy(offers, c)
  {
    var live := c => WantsToBuy(offers, c);
    FilterAllCommodities(live);
    Filter(AllCommodities, live)
  }

  /** The commodities with a live sell offer, in commodity order. */
  function SellOffered(offers: map<Commodity, Offer>): (r: seq<Commodity>)
    ensures forall c: Commodity :: c in r <==> WantsToSell(offers, c)
  {
    var live := c => WantsToSell(offers, c);
    FilterAllCommodities(live);
    Filter(AllCommodities, live)
  }

  /** `getNeededCommodities` of a trading entity: every commodity with a
      live buy offer, once, the least stocked first (a stable sort, so ties
      keep the commodity order). */
  function NeededByStock(offers: map<Commodity, Offer>, storage: Storage): (r: seq<Commodity>)
    requires Total(storage.stored)
    ensures forall c: Commodity :: c in r <==> WantsToBuy(offers, c)
    ensures multiset(r) == multiset(BuyOffered(offers))
    ensures SortedBy(r, StockKey(storage))
  {
    SortByIsSorted(BuyOffered(offers), StockKey(storage));
    SameMembers(SortBy(BuyOffered(offers), StockKey(storage)), BuyOffered(offers));
    SortBy(BuyOffered(offers), StockKey(storage))
  }

  /** `getCommoditiesForSell`, of a trading entity and of `Facility` alike:
      every commodity with a live sell offer, once, the least stocked first
      (stable). */
  function CommoditiesForSell(offers: map<Commodity, Offer>, storage: Storage): (r: seq<Commodity>)
    requires Total(storage.stored)
    ensures forall c: Commodity :: c in r <==> WantsToSell(offers, c)
    ensures multiset(r) == multiset(SellOffered(offers))
    ensures SortedBy(r, StockKey(storage))
  {
    SortByIsSorted(SellOffered(offers), StockKey(storage));
    SameMembers(SortBy(SellOffered(offers), StockKey(storage)), SellOffered(offers));
    SortBy(SellOffered(offers), StockKey(storage))
  }
}
