/** The facility economy engine: a facility derives its offers from what its
    modules produce and consume and from its stock, reserves budget and
    storage for accepted trades, settles them into a bounded transaction log,
    and nudges its prices by about one percent depending on recent demand. */
module Facilities {
  import opened Common
  import opened Ledger
  import opened TradeTypes
  import opened FacilityModules
  import opened EconomyUtils

  /** `maxTransactions`: the log keeps the newest 100 transactions. */
  const MaxTransactions: nat := 100

  /** `Transaction`: an accepted request and when it was settled. */
  datatype Transaction = Transaction(input: TransactionInput, time: int)

  /** What `allocate` hands back: a budget reservation (sell requests only) and a storage one. */
  datatype AllocationPair = AllocationPair(budget: Option<BudgetAllocation>, storage: StorageAllocation)

  /** Every module carrying a production component has a value for every commodity. */
  predicate ModulesTotal(ms: seq<ModuleRecord>)
  {
    forall i :: 0 <= i < |ms| && ms[i].production.Some? ==> Total(ms[i].production.value)
  }

  // ---------------------------------------------------------------------------
  // Surplus and offered quantity

  /** `getProductionSurplus`: net production per cycle. */
  function ProductionSurplus(pac: map<Commodity, PAC>, c: Commodity): int
    requires Total(pac)
  {
    pac[c].produces - pac[c].consumes
  }

  /** `getSurplus`: available stock plus net production. */
  function Surplus(pac: map<Commodity, PAC>, storage: Storage, c: Commodity): int
    requires Total(pac) && Total(storage.stored)
  {
    AvailableWares(storage, c) + ProductionSurplus(pac, c)
  }

  /** `getPlannedBudget(this)`: before the first offers exist, lodash maps
      over nothing and the sum is 0. */
  function RequiredBudget(offers: Option<map<Commodity, Offer>>): int
    requires offers.Some? ==> Total(offers.value)
  {
    if offers.Some? then PlannedBudget(offers.value) else 0
  }

  /** `getOfferedQuantity`: positive means "to sell", negative "to buy".
      A commodity neither produced nor consumed offers its stock; a net
      product keeps two cycles of its own consumption; anything stocked
      above quota sells the excess; otherwise the shortage below quota is
      bought, scaled down when the planned purchases exceed the money
      available. */
  function OfferedQuantity(pac: map<Commodity, PAC>, storage: Storage, budget: Budget, required: int, c: Commodity)
    : (q: int)
    requires Total(pac) && Total(storage.stored) && Total(storage.quota) && Available(budget) >= 0
    ensures pac[c].consumes == 0 && pac[c].produces == 0 ==> q == AvailableWares(storage, c)
    ensures !(pac[c].consumes == 0 && pac[c].produces == 0) && ProductionSurplus(pac, c) > 0 ==>
              q == AvailableWares(storage, c) - 2 * pac[c].consumes
    ensures !(pac[c].consumes == 0 && pac[c].produces == 0) && ProductionSurplus(pac, c) <= 0 ==>
              && (AvailableWares(storage, c) > storage.quota[c] ==> q == AvailableWares(storage, c) - storage.quota[c] > 0)
              && (AvailableWares(storage, c) <= storage.quota[c] ==>
                    AvailableWares(storage, c) - storage.quota[c] <= q <= 0)
              && (AvailableWares(storage, c) <= storage.quota[c] && required <= Available(budget) ==>
                    q == AvailableWares(storage, c) - storage.quota[c])
              && (AvailableWares(storage, c) <= storage.quota[c] && required > Available(budget) ==>
                    required * q <= Available(budget) * (AvailableWares(storage, c) - storage.quota[c]) < required * (q + 1))
  {
    var stored := AvailableWares(storage, c);
    var quota := storage.quota[c];
    if pac[c].consumes == pac[c].produces && pac[c].consumes == 0 then
      Surplus(pac, storage, c)
    else if ProductionSurplus(pac, c) > 0 then
      stored - pac[c].consumes * 2
    else if stored > quota then
      stored - quota
    else if required > Available(budget) then
      ScaledShortage(Available(budget), required, stored - quota)
    else
      stored - quota
  }

  /** `Math.floor(available / required * shortage)` for a shortage (at most
      zero) and `0 <= available < required`: never positive and never past
      the full shortage. */
  function ScaledShortage(available: int, required: int, shortage: int): (q: int)
    requires 0 <= available < required && shortage <= 0
    ensures required * q <= available * shortage < required * (q + 1)
    ensures shortage <= q <= 0
  {
    var q := FloorDiv(available * shortage, required);
    ScaledShortageBounds(available, required, shortage, q);
    q
  }

  lemma ScaledShortageBounds(available: int, required: int, shortage: int, q: int)
    requires 0 <= available < required && shortage <= 0
    requires required * q <= available * shortage < required * (q + 1)
    ensures shortage <= q <= 0
  {
    assert available * shortage >= required * shortage by {
      assert (required - available) * shortage <= 0 by {
        MulNonPosRight(required - available, shortage);
      }
    }
    if q > 0 {
      assert required * q > 0 by {
        MulPos(required, q);
      }
    }
    MulLessCancel(required, shortage, q + 1);
  }

  lemma MulNonPosRight(a: int, b: int)
    requires a >= 0 && b <= 0
    ensures a * b <= 0
  {
  }

  lemma MulPos(a: int, b: int)
    requires a > 0 && b > 0
    ensures a * b > 0
  {
  }

  lemma MulLessCancel(k: int, x: int, y: int)
    requires k > 0 && k * x < k * y
    ensures x < y
  {
    if x >= y {
      assert k * (x - y) >= 0 by {
        MulNonNeg(k, x - y);
      }
    }
  }

  lemma MulNonNeg(a: int, b: int)
    requires a >= 0 && b >= 0
    ensures a * b >= 0
  {
  }

  function Magnitude(q: int): nat
  {
    if q > 0 then q else -q
  }

  /** One commodity's offer in `createOffers`: a sell offer exactly when
      the offered quantity is positive, for its magnitude, at the previous
      price (the starting price for a facility publishing its first offers). */
  function OfferFor(pac: map<Commodity, PAC>, storage: Storage, budget: Budget, prev: Option<map<Commodity, Offer>>,
                    c: Commodity): (o: Offer)
    requires Total(pac) && Total(storage.stored) && Total(storage.quota) && Available(budget) >= 0
    requires prev.Some? ==> Total(prev.value)
    ensures var q := OfferedQuantity(pac, storage, budget, RequiredBudget(prev), c);
      && (o.kind == Sell <==> q > 0)
      && o.quantity == Magnitude(q)
      && o.price == (if prev.Some? then prev.value[c].price else StartingPrice)
  {
    var q := OfferedQuantity(pac, storage, budget, RequiredBudget(prev), c);
    Offer(if prev.Some? then prev.value[c].price else StartingPrice,
          if q > 0 then q else -q,
          if q > 0 then Sell else Buy)
  }

  /** `createOffers`: one offer per commodity. */
  function OffersFor(pac: map<Commodity, PAC>, storage: Storage, budget: Budget, prev: Option<map<Commodity, Offer>>)
    : (r: map<Commodity, Offer>)
    requires Total(pac) && Total(storage.stored) && Total(storage.quota) && Available(budget) >= 0
    requires prev.Some? ==> Total(prev.value)
    ensures Total(r)
    ensures forall c: Commodity :: r[c] == OfferFor(pac, storage, budget, prev, c)
  {
    AllCommoditiesListed();
    map c | c in CommoditySet :: OfferFor(pac, storage, budget, prev, c)
  }

  /** A commodity the facility neither makes nor uses is sold exactly when
      some of it is available; one it consumes more than it makes is never
      sold while its stock is at or below quota. */
  lemma OfferKindFollowsStock(pac: map<Commodity, PAC>, storage: Storage, budget: Budget,
                              prev: Option<map<Commodity, Offer>>, c: Commodity)
    requires Total(pac) && Total(storage.stored) && Total(storage.quota) && Available(budget) >= 0
    requires prev.Some? ==> Total(prev.value)
    ensures pac[c] == PAC(0, 0) ==>
              (OffersFor(pac, storage, budget, prev)[c].kind == Sell <==> AvailableWares(storage, c) > 0)
    ensures pac[c] != PAC(0, 0) && ProductionSurplus(pac, c) <= 0 && AvailableWares(storage, c) <= storage.quota[c] ==>
              OffersFor(pac, storage, budget, prev)[c].kind == Buy
  {
  }

  // ---------------------------------------------------------------------------
  // Production cost

  predicate ProducesIt(m: ModuleRecord, c: Commodity)
  {
    m.production.Some? && c in m.production.value && m.production.value[c].produces > 0
  }

  /** `modules.find(m => m.cp.production?.pac[c].produces > 0)`, as an index. */
  function FirstProducer(ms: seq<ModuleRecord>, c: Commodity): (r: Option<nat>)
    ensures r.Some? ==> r.value < |ms| && ProducesIt(ms[r.value], c)
    ensures r.Some? ==> forall j :: 0 <= j < r.value ==> !ProducesIt(ms[j], c)
    ensures r.None? <==> forall j :: 0 <= j < |ms| ==> !ProducesIt(ms[j], c)
  {
    if ms == [] then None
    else if ProducesIt(ms[0], c) then Some(0)
    else
      var rest := FirstProducer(ms[1..], c);
      assert forall j :: 1 <= j < |ms| ==> ms[j] == ms[1..][j - 1];
      if rest.None? then None else Some(rest.value + 1)
  }

  lemma PathShrinks(path: set<Commodity>, c: Commodity)
    requires c !in path
    ensures |CommoditySet - (path + {c})| < |CommoditySet - path|
  {
    CommodityListed(c);
    assert CommoditySet - (path + {c}) == (CommoditySet - path) - {c};
  }

  /** `getProductionCost`: a commodity no module produces costs its own
      offer price; otherwise the first producing module's inputs, each at its
      own production cost, per unit of output, rounded up. `path` holds the
      commodities whose cost is being computed further up: reaching one of
      them again means the engine would recurse without end. */
  function ProductionCost(ms: seq<ModuleRecord>, offers: map<Commodity, Offer>, c: Commodity, path: set<Commodity>)
    : (r: Result<int>)
    requires ModulesTotal(ms) && Total(offers)
    ensures r.Err? ==> r.error == StackOverflow
    ensures c !in path && FirstProducer(ms, c).None? ==> r == Ok(offers[c].price)
    decreases |CommoditySet - path|, 1
  {
    if c in path then Err(StackOverflow)
    else
      match FirstProducer(ms, c)
      case None => Ok(offers[c].price)
      case Some(i) =>
        var pac := ms[i].production.value;
        var total := CostSum(ms, offers, pac, AllCommodities, c, path);
        if total.Err? then total else Ok(CeilDiv(total.value, pac[c].produces))
  }

  /** The summed input cost `Σ cost(d) × consumes(d)` over the listed
      commodities with a nonzero consumption. */
  function CostSum(ms: seq<ModuleRecord>, offers: map<Commodity, Offer>, pac: map<Commodity, PAC>,
                   cs: seq<Commodity>, c: Commodity, path: set<Commodity>): (r: Result<int>)
    requires ModulesTotal(ms) && Total(offers) && Total(pac) && c !in path
    ensures r.Err? ==> r.error == StackOverflow
    decreases |CommoditySet - path|, 0, |cs|
  {
    if cs == [] then Ok(0)
    else if pac[cs[0]].consumes == 0 then CostSum(ms, offers, pac, cs[1..], c, path)
    else
      PathShrinks(path, c);
      match ProductionCost(ms, offers, cs[0], path + {c})
      case Err(e) => Err(e)
      case Ok(v) =>
        var rest := CostSum(ms, offers, pac, cs[1..], c, path);
        if rest.Err? then rest else Ok(v * pac[cs[0]].consumes + rest.value)
  }

  predicate NonNegativeEconomy(ms: seq<ModuleRecord>, offers: map<Commodity, Offer>)
    requires ModulesTotal(ms) && Total(offers)
  {
    && (forall c: Commodity :: offers[c].price >= 0)
    && (forall i, c: Commodity :: 0 <= i < |ms| && ms[i].production.Some? ==> ms[i].production.value[c].consumes >= 0)
  }

  /** With non-negative prices and consumptions every production cost that
      can be computed is non-negative. */
  lemma {:induction false} ProductionCostNonNegative(ms: seq<ModuleRecord>, offers: map<Commodity, Offer>,
                                                     c: Commodity, path: set<Commodity>)
    requires ModulesTotal(ms) && Total(offers) && NonNegativeEconomy(ms, offers)
    ensures ProductionCost(ms, offers, c, path).Ok? ==> ProductionCost(ms, offers, c, path).value >= 0
    decreases |CommoditySet - path|, 1
  {
    if c !in path {
      match FirstProducer(ms, c)
      case None =>
      case Some(i) =>
        var pac := ms[i].production.value;
        CostSumNonNegative(ms, offers, pac, AllCommodities, c, path, i);
        var total := CostSum(ms, offers, pac, AllCommodities, c, path);
        if total.Ok? {
          var k := CeilDiv(total.value, pac[c].produces);
          assert pac[c].produces * k >= total.value >= 0;
        }
    }
  }

  lemma {:induction false} CostSumNonNegative(ms: seq<ModuleRecord>, offers: map<Commodity, Offer>, pac: map<Commodity, PAC>,
                                              cs: seq<Commodity>, c: Commodity, path: set<Commodity>, i: nat)
    requires ModulesTotal(ms) && Total(offers) && NonNegativeEconomy(ms, offers)
    requires i < |ms| && ms[i].production == Some(pac) && c !in path
    ensures Total(pac)
    ensures CostSum(ms, offers, pac, cs, c, path).Ok? ==> CostSum(ms, offers, pac, cs, c, path).value >= 0
    decreases |CommoditySet - path|, 0, |cs|
  {
    if cs != [] {
      CostSumNonNegative(ms, offers, pac, cs[1..], c, path, i);
      if pac[cs[0]].consumes != 0 {
        PathShrinks(path, c);
        ProductionCostNonNegative(ms, offers, cs[0], path + {c});
        var v := ProductionCost(ms, offers, cs[0], path + {c});
        if v.Ok? {
          MulNonNeg(v.value, pac[cs[0]].consumes);
        }
      }
    }
  }

  /** The dependency the cost recursion follows: the first module producing
      `a` consumes a nonzero amount of `b`. */
  predicate ConsumedFor(ms: seq<ModuleRecord>, a: Commodity, b: Commodity)
    requires ModulesTotal(ms)
  {
    match FirstProducer(ms, a)
    case None => false
    case Some(i) => ms[i].production.value[b].consumes != 0
  }

  /** A walk along that dependency. */
  predicate IsChain(ms: seq<ModuleRecord>, s: seq<Commodity>)
    requires ModulesTotal(ms)
  {
    forall i :: 0 <= i < |s| - 1 ==> ConsumedFor(ms, s[i], s[i + 1])
  }

  /** A walk that comes back to a commodity it has already visited. */
  predicate ClosesLoop(ms: seq<ModuleRecord>, s: seq<Commodity>)
    requires ModulesTotal(ms)
  {
    |s| > 1 && IsChain(ms, s) && s[|s| - 1] in s[..|s| - 1]
  }

  function Elements(p: seq<Commodity>): set<Commodity>
  {
    set x | x in p
  }

  /** The engine computes a production cost exactly when no dependency walk
      from the commodity runs into a loop; otherwise it recurses without end. */
  lemma ProductionCostFailsOnLoop(ms: seq<ModuleRecord>, offers: map<Commodity, Offer>, c: Commodity)
    requires ModulesTotal(ms) && Total(offers)
    ensures ProductionCost(ms, offers, c, {}).Err? <==> exists s :: ClosesLoop(ms, s) && s[0] == c
  {
    FailureHasLoop(ms, offers, c);
    LoopMakesFailure(ms, offers, c);
  }

  lemma FailureHasLoop(ms: seq<ModuleRecord>, offers: map<Commodity, Offer>, c: Commodity)
    requires ModulesTotal(ms) && Total(offers)
    ensures ProductionCost(ms, offers, c, {}).Err? ==> exists s :: ClosesLoop(ms, s) && s[0] == c
  {
    if ProductionCost(ms, offers, c, {}).Err? {
      var start: seq<Commodity> := [];
      assert Elements(start) == {};
      var s := LoopOfFailure(ms, offers, start, c);
      assert start + s == s;
    }
  }

  lemma LoopMakesFailure(ms: seq<ModuleRecord>, offers: map<Commodity, Offer>, c: Commodity)
    requires ModulesTotal(ms) && Total(offers)
    ensures (exists s :: ClosesLoop(ms, s) && s[0] == c) ==> ProductionCost(ms, offers, c, {}).Err?
  {
    var start: seq<Commodity> := [];
    assert Elements(start) == {};
    forall s | ClosesLoop(ms, s) && s[0] == c
      ensures ProductionCost(ms, offers, c, {}).Err?
    {
      assert start + s == s;
      FailureOfLoop(ms, offers, start, s);
    }
  }

  /** `CostSum` fails exactly when some consumed input's cost fails. */
  lemma {:induction false} CostSumFails(ms: seq<ModuleRecord>, offers: map<Commodity, Offer>, pac: map<Commodity, PAC>,
                                        cs: seq<Commodity>, c: Commodity, path: set<Commodity>)
    requires ModulesTotal(ms) && Total(offers) && Total(pac) && c !in path
    ensures CostSum(ms, offers, pac, cs, c, path).Err? <==>
              exists j :: 0 <= j < |cs| && pac[cs[j]].consumes != 0
                          && ProductionCost(ms, offers, cs[j], path + {c}).Err?
    decreases |cs|
  {
    if cs != [] {
      CostSumFails(ms, offers, pac, cs[1..], c, path);
      forall j | 1 <= j < |cs|
        ensures cs[j] == cs[1..][j - 1]
      {
      }
      if CostSum(ms, offers, pac, cs, c, path).Ok? && pac[cs[0]].consumes != 0 {
        PathShrinks(path, c);
      }
    }
  }

  /** From a failure, the walk to the loop it ran into, continuing `p`. */
  lemma {:induction false} LoopOfFailure(ms: seq<ModuleRecord>, offers: map<Commodity, Offer>, p: seq<Commodity>,
                                         c: Commodity) returns (s: seq<Commodity>)
    requires ModulesTotal(ms) && Total(offers) && IsChain(ms, p + [c])
    requires ProductionCost(ms, offers, c, Elements(p)).Err?
    ensures s != [] && s[0] == c && ClosesLoop(ms, p + s)
    decreases |CommoditySet - Elements(p)|
  {
    if c in Elements(p) {
      s := [c];
      assert (p + s)[..|p + s| - 1] == p;
    } else {
      var d := FailedInput(ms, offers, c, Elements(p));
      assert Elements(p + [c]) == Elements(p) + {c};
      PathShrinks(Elements(p), c);
      ExtendChain(ms, p + [c], d);
      var t := LoopOfFailure(ms, offers, p + [c], d);
      s := [c] + t;
      AppendAssoc(p, [c], t);
    }
  }

  /** A failed cost names an input of the first producer whose own cost fails. */
  lemma FailedInput(ms: seq<ModuleRecord>, offers: map<Commodity, Offer>, c: Commodity, path: set<Commodity>)
    returns (d: Commodity)
    requires ModulesTotal(ms) && Total(offers) && c !in path
    requires ProductionCost(ms, offers, c, path).Err?
    ensures ConsumedFor(ms, c, d) && ProductionCost(ms, offers, d, path + {c}).Err?
  {
    var i := FirstProducer(ms, c).value;
    var pac := ms[i].production.value;
    CostSumFails(ms, offers, pac, AllCommodities, c, path);
    var j :| 0 <= j < |AllCommodities| && pac[AllCommodities[j]].consumes != 0
             && ProductionCost(ms, offers, AllCommodities[j], path + {c}).Err?;
    d := AllCommodities[j];
  }

  lemma ExtendChain(ms: seq<ModuleRecord>, q: seq<Commodity>, d: Commodity)
    requires ModulesTotal(ms) && IsChain(ms, q) && q != [] && ConsumedFor(ms, q[|q| - 1], d)
    ensures IsChain(ms, q + [d])
  {
    forall k | 0 <= k < |q + [d]| - 1
      ensures ConsumedFor(ms, (q + [d])[k], (q + [d])[k + 1])
    {
      if k < |q| - 1 {
        assert (q + [d])[k] == q[k] && (q + [d])[k + 1] == q[k + 1];
      }
    }
  }

  lemma AppendAssoc(a: seq<Commodity>, b: seq<Commodity>, c: seq<Commodity>)
    ensures a + (b + c) == (a + b) + c
  {
  }

  /** A walk continuing `p` that closes a loop makes the cost of its first
      commodity fail. */
  lemma {:induction false} FailureOfLoop(ms: seq<ModuleRecord>, offers: map<Commodity, Offer>, p: seq<Commodity>,
                                         s: seq<Commodity>)
    requires ModulesTotal(ms) && Total(offers) && s != [] && ClosesLoop(ms, p + s)
    ensures ProductionCost(ms, offers, s[0], Elements(p)).Err?
    decreases |s|
  {
    var c := s[0];
    assert (p + s)[..|p|] == p;
    if c !in Elements(p) {
      if |s| == 1 {
        assert false;
      }
      assert ConsumedFor(ms, c, s[1]) by {
        assert (p + s)[|p|] == c && (p + s)[|p| + 1] == s[1];
      }
      var i := FirstProducer(ms, c).value;
      var pac := ms[i].production.value;
      assert p + s == (p + [c]) + s[1..];
      FailureOfLoop(ms, offers, p + [c], s[1..]);
      assert Elements(p + [c]) == Elements(p) + {c};
      CommodityListed(s[1]);
      var j :| 0 <= j < |AllCommodities| && AllCommodities[j] == s[1];
      CostSumFails(ms, offers, pac, AllCommodities, c, Elements(p));
    }
  }

  // ---------------------------------------------------------------------------
  // Trade acceptance

  /** `Facility.isTradeAccepted`: a negative ask is an error; a request of
      the same kind as the facility's own offer is an error unless it comes
      from the owner; a buy needs the price (waived for the owner) and the
      stock; a sell needs the price (waived for the owner), the money and the
      free space. */
  function IsTradeAccepted(offers: map<Commodity, Offer>, owner: EntityId, budget: Budget, storage: Storage,
                           input: TransactionInput): (r: Result<bool>)
    requires Total(offers) && Total(storage.stored)
    ensures var offer := offers[input.commodity];
      && (r.Err? <==> offer.price < 0 || (offer.kind == input.kind && input.factionId != owner))
      && (r.Err? ==> r.error == (if offer.price < 0 then NonPositiveAmount else InvalidOfferType))
      && (r.Ok? && input.kind == Buy ==>
            (r.value <==> (input.factionId == owner || input.price >= offer.price)
                          && HasSufficientStorage(storage, input.commodity, input.quantity)))
      && (r.Ok? && input.kind == Sell ==>
            (r.value <==> (input.factionId == owner || input.price <= offer.price)
                          && Available(budget) >= input.price * input.quantity
                          && HasSufficientStorageSpace(storage, input.quantity)))
  {
    var offer := offers[input.commodity];
    if offer.price < 0 then Err(NonPositiveAmount)
    else if offer.kind == input.kind && input.factionId != owner then Err(InvalidOfferType)
    else if input.kind == Buy then
      var validPrice := if input.factionId == owner then true else input.price >= offer.price;
      Ok(validPrice && HasSufficientStorage(storage, input.commodity, input.quantity))
    else
      var validPrice := if input.factionId == owner then true else input.price <= offer.price;
      Ok(validPrice && Available(budget) >= input.price * input.quantity
         && HasSufficientStorageSpace(storage, input.quantity))
  }

  // ---------------------------------------------------------------------------
  // Price adjustment

  /** Quantity of `c` traded against the facility's current offer kind since `since`. */
  function TradedQuantity(ts: seq<Transaction>, c: Commodity, since: int, kind: OfferType): int
  {
    if ts == [] then 0
    else
      (if ts[0].input.commodity == c && ts[0].time > since && ts[0].input.kind != kind then ts[0].input.quantity else 0)
      + TradedQuantity(ts[1..], c, since, kind)
  }

  function Quantities(ts: seq<Transaction>, since: int, offers: map<Commodity, Offer>): (q: map<Commodity, int>)
    requires Total(offers)
    ensures Total(q)
  {
    AllCommoditiesListed();
    map c | c in CommoditySet :: TradedQuantity(ts, c, since, offers[c].kind)
  }

  function Changes(quantities: map<Commodity, int>, last: map<Commodity, int>): (d: map<Commodity, int>)
    requires Total(quantities) && Total(last)
    ensures Total(d)
  {
    AllCommoditiesListed();
    map c | c in CommoditySet :: quantities[c] - last[c]
  }

  /** The demand change that steers each offer's nudge: the quantity of the
      commodity traded against the current offer since the last adjustment,
      less the quantity recorded at that adjustment. */
  lemma DemandChange(ts: seq<Transaction>, since: int, offers: map<Commodity, Offer>, last: map<Commodity, int>)
    requires Total(offers) && Total(last)
    ensures var q := Quantities(ts, since, offers);
      forall c: Commodity :: q[c] == TradedQuantity(ts, c, since, offers[c].kind)
        && Changes(q, last)[c] == TradedQuantity(ts, c, since, offers[c].kind) - last[c]
  {
    AllCommoditiesListed();
  }

  /** `stockpiled`: a buy offer whose available stock exceeds 80% of quota.
      The engine divides by the quota: with a zero quota any positive stock
      counts (an infinite ratio) and none does not (`NaN`); a negative quota
      flips the comparison. */
  predicate Stockpiled(o: Offer, wares: int, quota: int)
  {
    o.kind == Buy &&
    if quota > 0 then 5 * wares > 4 * quota
    else if quota < 0 then 5 * wares < 4 * quota
    else wares > 0
  }

  predicate Skipped(o: Offer, storage: Storage, c: Commodity)
    requires Total(storage.stored) && Total(storage.quota)
  {
    o.quantity <= 0 || Stockpiled(o, AvailableWares(storage, c), storage.quota[c])
  }

  /** `limitMin(Math.floor(price * 0.01), 1)`: about one percent, at least 1. */
  function PriceStep(price: int): (d: int)
    ensures d >= 1
    ensures price >= 100 ==> 100 * d <= price < 100 * (d + 1)
    ensures price < 200 ==> d == 1
  {
    LimitMin(FloorDiv(price, 100), 1)
  }

  /** The signed nudge: a sell price goes down exactly when demand did not
      grow, a buy price goes up exactly then. */
  function SignedStep(o: Offer, change: int): (d: int)
    ensures o.kind == Sell ==> (d < 0 <==> change <= 0)
    ensures o.kind == Buy ==> (d > 0 <==> change <= 0)
    ensures d == PriceStep(o.price) || d == -PriceStep(o.price)
  {
    if (o.kind == Sell) == (change <= 0) then -PriceStep(o.price) else PriceStep(o.price)
  }

  /** One commodity's step of `adjustPrices`, on the offers as they stand. */
  function AdjustOne(ms: seq<ModuleRecord>, offers: map<Commodity, Offer>, storage: Storage,
                     changes: map<Commodity, int>, c: Commodity): (r: Result<Offer>)
    requires ModulesTotal(ms) && Total(offers) && Total(storage.stored) && Total(storage.quota) && Total(changes)
    ensures r.Ok? ==> r.value.kind == offers[c].kind && r.value.quantity == offers[c].quantity
    ensures Skipped(offers[c], storage, c) ==> r == Ok(offers[c])
    ensures r.Ok? && !Skipped(offers[c], storage, c) ==>
              r.value.price >= offers[c].price + SignedStep(offers[c], changes[c])
    ensures !Skipped(offers[c], storage, c) && offers[c].kind == Buy ==>
              r == Ok(offers[c].(price := LimitMin(offers[c].price + SignedStep(offers[c], changes[c]), 1)))
    ensures !Skipped(offers[c], storage, c) && offers[c].kind == Sell ==>
              (r.Ok? <==> ProductionCost(ms, offers, c, {}).Ok?)
              && (r.Ok? ==> r.value.price >= ProductionCost(ms, offers, c, {}).value)
    ensures r.Ok? && !Skipped(offers[c], storage, c) && offers[c].kind == Sell ==>
              r.value.price == LimitMin(offers[c].price + SignedStep(offers[c], changes[c]),
                                        ProductionCost(ms, offers, c, {}).value)
  {
    var o := offers[c];
    if Skipped(o, storage, c) then Ok(o)
    else
      var minPrice := if o.kind == Buy then Ok(1) else ProductionCost(ms, offers, c, {});
      if minPrice.Err? then Err(minPrice.error)
      else Ok(o.(price := LimitMin(o.price + SignedStep(o, changes[c]), minPrice.value)))
  }

  /** The outcome of the adjustment loop: the offers reached and whether a
      production cost overflowed the stack on the way. */
  datatype Adjusted = Adjusted(offers: map<Commodity, Offer>, failed: bool)

  function AdjustFrom(cs: seq<Commodity>, ms: seq<ModuleRecord>, offers: map<Commodity, Offer>, storage: Storage,
                      changes: map<Commodity, int>): (r: Adjusted)
    requires ModulesTotal(ms) && Total(offers) && Total(storage.stored) && Total(storage.quota) && Total(changes)
    ensures Total(r.offers)
  {
    if cs == [] then Adjusted(offers, false)
    else
      match AdjustOne(ms, offers, storage, changes, cs[0])
      case Err(_) => Adjusted(offers, true)
      case Ok(o) => AdjustFrom(cs[1..], ms, offers[cs[0] := o], storage, changes)
  }

  /** One unfolding of the adjustment fold over the commodities from position `i` on. */
  lemma AdjustFromUnfold(i: nat, ms: seq<ModuleRecord>, offers: map<Commodity, Offer>, storage: Storage,
                         changes: map<Commodity, int>)
    requires ModulesTotal(ms) && Total(offers) && Total(storage.stored) && Total(storage.quota) && Total(changes)
    requires i < |AllCommodities|
    ensures AdjustFrom(AllCommodities[i..], ms, offers, storage, changes)
         == match AdjustOne(ms, offers, storage, changes, AllCommodities[i])
            case Err(_) => Adjusted(offers, true)
            case Ok(o) => AdjustFrom(AllCommodities[i + 1..], ms, offers[AllCommodities[i] := o], storage, changes)
  {
    assert AllCommodities[i..][0] == AllCommodities[i];
    assert AllCommodities[i..][1..] == AllCommodities[i + 1..];
  }

  /** The adjustment loop of `adjustPrices`: each commodity in order is
      re-priced on the offers already moved, stopping at the first one whose
      production cost cannot be computed. */
  method AdjustAll(ms: seq<ModuleRecord>, offers: map<Commodity, Offer>, storage: Storage,
                   changes: map<Commodity, int>) returns (r: Adjusted)
    requires ModulesTotal(ms) && Total(offers) && Total(storage.stored) && Total(storage.quota) && Total(changes)
    ensures r == AdjustFrom(AllCommodities, ms, offers, storage, changes)
  {
    var current := offers;
    var i := 0;
    while i < |AllCommodities|
      invariant 0 <= i <= |AllCommodities|
      invariant Total(current)
      invariant AdjustFrom(AllCommodities, ms, offers, storage, changes)
             == AdjustFrom(AllCommodities[i..], ms, current, storage, changes)
    {
      var c := AllCommodities[i];
      AdjustFromUnfold(i, ms, current, storage, changes);
      var step := AdjustOne(ms, current, storage, changes, c);
      if step.Err? {
        return Adjusted(current, true);
      }
      current := current[c := step.value];
      i := i + 1;
    }
    assert AllCommodities[i..] == [];
    r := Adjusted(current, false);
  }

  /** What a full adjustment does to each commodity: kinds and quantities
      stay; commodities not visited or skipped keep their price; a visited
      buy offer moves by its signed step and never below 1; a visited sell
      offer ends no lower than its signed step allows. */
  /** The offers the adjustment loop holds when it reaches `c`: the prices
      of the commodities visited before it have already moved. */
  function OffersAt(cs: seq<Commodity>, ms: seq<ModuleRecord>, offers: map<Commodity, Offer>, storage: Storage,
                    changes: map<Commodity, int>, c: Commodity): (r: map<Commodity, Offer>)
    requires ModulesTotal(ms) && Total(offers) && Total(storage.stored) && Total(storage.quota) && Total(changes)
    ensures Total(r)
  {
    if cs == [] || cs[0] == c then offers
    else
      match AdjustOne(ms, offers, storage, changes, cs[0])
      case Err(_) => offers
      case Ok(o) => OffersAt(cs[1..], ms, offers[cs[0] := o], storage, changes, c)
  }

  /** The tail of a list of distinct commodities is distinct and misses the head. */
  lemma DistinctTail(cs: seq<Commodity>)
    requires cs != [] && forall i, j :: 0 <= i < j < |cs| ==> cs[i] != cs[j]
    ensures forall i, j :: 0 <= i < j < |cs[1..]| ==> cs[1..][i] != cs[1..][j]
    ensures cs[0] !in cs[1..]
    ensures forall c :: c in cs <==> c == cs[0] || c in cs[1..]
  {
    var tail := cs[1..];
    forall i, j | 0 <= i < j < |tail| ensures tail[i] != tail[j] {
      assert tail[i] == cs[i + 1] && tail[j] == cs[j + 1];
    }
    forall k | 0 <= k < |tail| ensures tail[k] != cs[0] {
      assert tail[k] == cs[k + 1];
    }
    assert cs == [cs[0]] + tail;
  }

  /** The loop keeps every kind and quantity, and leaves unvisited and skipped commodities alone. */
  lemma {:induction false} AdjustFromKeeps(cs: seq<Commodity>, ms: seq<ModuleRecord>, offers: map<Commodity, Offer>,
                                           storage: Storage, changes: map<Commodity, int>)
    requires ModulesTotal(ms) && Total(offers) && Total(storage.stored) && Total(storage.quota) && Total(changes)
    ensures var r := AdjustFrom(cs, ms, offers, storage, changes);
      forall c: Commodity ::
        && r.offers[c].kind == offers[c].kind && r.offers[c].quantity == offers[c].quantity
        && (c !in cs || Skipped(offers[c], storage, c) ==> r.offers[c] == offers[c])
  {
    if cs != [] {
      var step := AdjustOne(ms, offers, storage, changes, cs[0]);
      if step.Ok? {
        var next := offers[cs[0] := step.value];
        AdjustFromKeeps(cs[1..], ms, next, storage, changes);
        forall c: Commodity | c != cs[0] ensures next[c] == offers[c] && (c in cs[1..] ==> c in cs) {
        }
      }
    }
  }

  /** The price a visited, unskipped commodity reaches when the loop completes. */
  lemma {:induction false} AdjustFromPrice(cs: seq<Commodity>, ms: seq<ModuleRecord>, offers: map<Commodity, Offer>,
                                           storage: Storage, changes: map<Commodity, int>, c: Commodity)
    requires ModulesTotal(ms) && Total(offers) && Total(storage.stored) && Total(storage.quota) && Total(changes)
    requires forall i, j :: 0 <= i < j < |cs| ==> cs[i] != cs[j]
    requires c in cs && !Skipped(offers[c], storage, c) && !AdjustFrom(cs, ms, offers, storage, changes).failed
    ensures var r := AdjustFrom(cs, ms, offers, storage, changes);
      && (offers[c].kind == Buy ==>
            r.offers[c].price == LimitMin(offers[c].price + SignedStep(offers[c], changes[c]), 1) >= 1)
      && (offers[c].kind == Sell ==>
            var floor := ProductionCost(ms, OffersAt(cs, ms, offers, storage, changes, c), c, {});
            && floor.Ok?
            && r.offers[c].price == LimitMin(offers[c].price + SignedStep(offers[c], changes[c]), floor.value))
  {
    var step := AdjustOne(ms, offers, storage, changes, cs[0]);
    assert step.Ok?;
    var next := offers[cs[0] := step.value];
    var tail := cs[1..];
    DistinctTail(cs);
    if cs[0] == c {
      AdjustFromKeeps(tail, ms, next, storage, changes);
    } else {
      assert c in tail && next[c] == offers[c];
      AdjustFromPrice(tail, ms, next, storage, changes, c);
    }
  }

  /** Everything the adjustment loop does to the offers, commodity by commodity. */
  lemma {:induction false} AdjustFromEffect(cs: seq<Commodity>, ms: seq<ModuleRecord>, offers: map<Commodity, Offer>,
                                            storage: Storage, changes: map<Commodity, int>)
    requires ModulesTotal(ms) && Total(offers) && Total(storage.stored) && Total(storage.quota) && Total(changes)
    requires forall i, j :: 0 <= i < j < |cs| ==> cs[i] != cs[j]
    ensures var r := AdjustFrom(cs, ms, offers, storage, changes);
      forall c: Commodity ::
        && r.offers[c].kind == offers[c].kind && r.offers[c].quantity == offers[c].quantity
        && (c !in cs || Skipped(offers[c], storage, c) ==> r.offers[c] == offers[c])
        && (c in cs && !Skipped(offers[c], storage, c) && offers[c].kind == Buy && !r.failed ==>
              r.offers[c].price == LimitMin(offers[c].price + SignedStep(offers[c], changes[c]), 1) >= 1)
        && (c in cs && !Skipped(offers[c], storage, c) && offers[c].kind == Sell && !r.failed ==>
              var floor := ProductionCost(ms, OffersAt(cs, ms, offers, storage, changes, c), c, {});
              && floor.Ok?
              && r.offers[c].price == LimitMin(offers[c].price + SignedStep(offers[c], changes[c]), floor.value))
  {
    AdjustFromKeeps(cs, ms, offers, storage, changes);
    forall c: Commodity | c in cs && !Skipped(offers[c], storage, c) && !AdjustFrom(cs, ms, offers, storage, changes).failed
      ensures var r := AdjustFrom(cs, ms, offers, storage, changes);
        && (offers[c].kind == Buy ==>
              r.offers[c].price == LimitMin(offers[c].price + SignedStep(offers[c], changes[c]), 1) >= 1)
        && (offers[c].kind == Sell ==>
              var floor := ProductionCost(ms, OffersAt(cs, ms, offers, storage, changes, c), c, {});
              && floor.Ok?
              && r.offers[c].price == LimitMin(offers[c].price + SignedStep(offers[c], changes[c]), floor.value))
    {
      AdjustFromPrice(cs, ms, offers, storage, changes, c);
    }
  }

  // ---------------------------------------------------------------------------
  // Needed and surplus commodities

  /** `getSummedConsumption` of the compound production: the total consumption per cycle. */
  function SummedConsumption(pac: map<Commodity, PAC>): int
    requires Total(pac)
  {
    Sum(map c | c in pac :: pac[c].consumes)
  }

  /** The `score` of a needed commodity: stock after one cycle's consumption,
      relative to the total consumption. */
  function NeedScore(pac: map<Commodity, PAC>, storage: Storage, summed: int): Commodity -> real
    requires Total(pac) && Total(storage.stored) && summed != 0
  {
    c => (AvailableWares(storage, c) - pac[c].consumes) as real / summed as real
  }

  /** `Facility.getNeededCommodities`: every commodity with a live buy
      offer, once, ordered by ascending score (stable). */
  function NeededCommodities(offers: map<Commodity, Offer>, pac: map<Commodity, PAC>, storage: Storage)
    : (r: seq<Commodity>)
    requires Total(offers) && Total(pac) && Total(storage.stored)
    requires SummedConsumption(pac) != 0
    ensures forall c: Commodity :: c in r <==> WantsToBuy(offers, c)
    ensures multiset(r) == multiset(BuyOffered(offers))
    ensures SortedBy(r, NeedScore(pac, storage, SummedConsumption(pac)))
  {
    var key := NeedScore(pac, storage, SummedConsumption(pac));
    SortByIsSorted(BuyOffered(offers), key);
    SameMembers(SortBy(BuyOffered(offers), key), BuyOffered(offers));
    SortBy(BuyOffered(offers), key)
  }

  // ---------------------------------------------------------------------------
  // The facility

  /** Keep the newest `MaxTransactions` entries of a log that grew by one. */
  function Capped(ts: seq<Transaction>): (r: seq<Transaction>)
    ensures |ts| <= MaxTransactions + 1 ==> |r| <= MaxTransactions
    ensures ts != [] ==> r != [] && r[|r| - 1] == ts[|ts| - 1]
    ensures |r| <= |ts| && r == ts[|ts| - |r|..]
    ensures |r| == if |ts| > MaxTransactions then |ts| - 1 else |ts|
  {
    if |ts| > MaxTransactions then ts[1..] else ts
  }

  /** Two production tables added commodity by commodity. */
  function Combined(pac: map<Commodity, PAC>, add: map<Commodity, PAC>): (r: map<Commodity, PAC>)
    requires Total(pac) && Total(add)
    ensures Total(r)
    ensures forall c: Commodity :: r[c] == PAC(pac[c].consumes + add[c].consumes, pac[c].produces + add[c].produces)
  {
    AllCommoditiesListed();
    map c | c in CommoditySet :: PAC(pac[c].consumes + add[c].consumes, pac[c].produces + add[c].produces)
  }

  lemma AddedOne(i: nat)
    requires i < |AllCommodities|
    ensures forall c: Commodity :: c in AllCommodities[..i + 1] <==> c in AllCommodities[..i] || c == AllCommodities[i]
    ensures AllCommodities[i] !in AllCommodities[..i]
  {
    AllCommoditiesDistinct();
    assert AllCommodities[..i + 1] == AllCommodities[..i] + [AllCommodities[i]];
  }

  class Facility {
    var owner: EntityId
    var transactions: seq<Transaction>
    var lastPriceAdjustTime: int
    var lastPriceAdjustCommodities: map<Commodity, int>
    var budget: Budget
    var pac: map<Commodity, PAC>
    var modules: seq<ModuleRecord>
    var storage: Storage
    var offers: Option<map<Commodity, Offer>>

    predicate Valid()
      reads this
    {
      && Total(pac)
      && ModulesTotal(modules)
      && ValidStorage(storage)
      && ValidBudget(budget)
      && offers.Some? && Total(offers.value)
      && Total(lastPriceAdjustCommodities)
      && |transactions| <= MaxTransactions
    }

    /** A facility with no modules, an empty log and its first offers. The
        owner, budget and storage components are given (their own
        constructors are not part of this model). */
    constructor (owner: EntityId, budget: Budget, storage: Storage)
      requires ValidBudget(budget) && ValidStorage(storage)
      ensures Valid()
      ensures this.owner == owner && this.budget == budget && this.storage == storage
      ensures transactions == [] && modules == [] && lastPriceAdjustTime == 0
      ensures forall c: Commodity :: pac[c] == PAC(0, 0) && lastPriceAdjustCommodities[c] == 0
      ensures offers == Some(OffersFor(pac, storage, budget, None))
    {
      AllCommoditiesListed();
      this.owner := owner;
      this.budget := budget;
      this.storage := storage;
      transactions := [];
      lastPriceAdjustTime := 0;
      lastPriceAdjustCommodities := Zeros();
      pac := map c | c in CommoditySet :: PAC(0, 0);
      modules := [];
      offers := None;
      new;
      CreateOffers();
    }

    /** `createOffers`: republish every offer from the current state. */
    method CreateOffers()
      requires Total(pac) && ValidStorage(storage) && ValidBudget(budget)
      requires offers.Some? ==> Total(offers.value)
      modifies this`offers
      ensures offers == Some(OffersFor(pac, storage, budget, old(offers)))
    {
      offers := Some(OffersFor(pac, storage, budget, offers));
    }

    /** `Facility.allocate`: nothing happens for a refused or erroneous
        request; an accepted sell reserves its price times its quantity in
        the budget and that quantity of space, an accepted buy reserves that
        quantity of the commodity (and no money). Neither carries a trade id. */
    method Allocate(input: TransactionInput) returns (r: Result<Option<AllocationPair>>)
      requires Valid()
      modifies this`budget, this`storage
      ensures Valid()
      ensures var acc := IsTradeAccepted(offers.value, owner, old(budget), old(storage), input);
        && (acc.Err? ==> r == Err(acc.error) && budget == old(budget) && storage == old(storage))
        && (acc == Ok(false) ==> r == Ok(None) && budget == old(budget) && storage == old(storage))
        && (acc == Ok(true) && input.quantity >= 0 && input.price >= 0 ==> r.Ok? && r.value.Some?)
        && (acc.Ok? && r.Err? ==> r.error == NegativeQuantity)
        && (acc == Ok(true) && r.Err? ==>
              && storage == old(storage)
              && (budget == old(budget)
                  || (input.kind == Sell
                      && NewBudgetAllocation(old(budget), input.price * input.quantity, 0, None).Ok?
                      && budget == NewBudgetAllocation(old(budget), input.price * input.quantity, 0, None).value.0)))
      ensures r.Ok? && r.value.Some? ==>
        var p := r.value.value;
        && storage.stored == old(storage).stored && storage.max == old(storage).max
        && storage.allocations == old(storage).allocations + [p.storage]
        && p.storage.tradeId.None?
        && (input.kind == Sell ==>
              && p.budget.Some? && p.budget.value.amount == input.price * input.quantity
              && p.budget.value.tradeId.None?
              && budget.allocations == old(budget).allocations + [p.budget.value]
              && p.storage.amount == StorageAmount(Incoming, Single(input.commodity, input.quantity)))
        && (input.kind == Buy ==>
              && p.budget.None? && budget == old(budget)
              && p.storage.amount == StorageAmount(Outgoing, Single(input.commodity, input.quantity)))
    {
      var acc := IsTradeAccepted(offers.value, owner, budget, storage, input);
      if acc.Err? {
        return Err(acc.error);
      }
      if !acc.value {
        return Ok(None);
      }
      var amount := Single(input.commodity, input.quantity);
      SumSingle(input.commodity, input.quantity);
      if input.kind == Sell {
        var b := NewBudgetAllocation(budget, input.price * input.quantity, 0, None);
        if b.Err? {
          return Err(b.error);
        }
        budget := b.value.0;
        var s := NewStorageAllocation(storage, StorageAmount(Incoming, amount), 0, None);
        if s.Err? {
          return Err(s.error);
        }
        storage := s.value.0;
        r := Ok(Some(AllocationPair(Some(b.value.1), s.value.1)));
      } else {
        var s := NewStorageAllocation(storage, StorageAmount(Outgoing, amount), 0, None);
        if s.Err? {
          return Err(s.error);
        }
        storage := s.value.0;
        r := Ok(Some(AllocationPair(None, s.value.1)));
      }
    }

    /** `acceptTrade`: for a paid trade, release the buyer's budget
        reservation and move exactly its amount to the other side (from this
        facility when the requester sells to it, to it otherwise); then log
        the transaction, dropping the oldest entry past 100. `counterparty`
        is the requester's budget, returned updated. */
    method AcceptTrade(input: TransactionInput, counterparty: Budget, now: int) returns (r: Result<Budget>)
      requires Valid() && ValidBudget(counterparty)
      modifies this`budget, this`transactions
      ensures Valid()
      ensures r.Ok? ==> ValidBudget(r.value)
      ensures r.Err? ==> budget == old(budget) && transactions == old(transactions)
      ensures r.Err? ==> input.price > 0
      ensures input.price <= 0 ==> r == Ok(counterparty) && budget == old(budget)
      ensures r.Ok? ==> transactions == Capped(old(transactions) + [Transaction(input, now)])
      ensures r.Ok? ==> |transactions| <= MaxTransactions && transactions[|transactions| - 1] == Transaction(input, now)
      ensures r.Ok? && input.price > 0 ==>
        && input.allocations.Some? && input.allocations.value.buyer.budget.Some?
        && var id := input.allocations.value.buyer.budget.value;
        && budget.money + r.value.money == old(budget).money + counterparty.money
        && (input.kind == Sell ==>
              && ReleaseBudgetAllocation(old(budget), id).Ok?
              && budget.money == old(budget).money - ReleaseBudgetAllocation(old(budget), id).value.1.amount
              && budget.allocations == ReleaseBudgetAllocation(old(budget), id).value.0.allocations
              && r.value.allocations == counterparty.allocations)
        && (input.kind == Buy ==>
              && ReleaseBudgetAllocation(counterparty, id).Ok?
              && budget.money == old(budget).money + ReleaseBudgetAllocation(counterparty, id).value.1.amount
              && r.value.allocations == ReleaseBudgetAllocation(counterparty, id).value.0.allocations
              && budget.allocations == old(budget).allocations)
    {
      var other := counterparty;
      if input.price > 0 {
        if input.allocations.None? {
          return Err(NullReference);
        }
        var ref := input.allocations.value.buyer.budget;
        if ref.None? {
          return Err(AllocationNotFound);
        }
        if input.kind == Sell {
          var released := ReleaseBudgetAllocation(budget, ref.value);
          if released.Err? {
            return Err(released.error);
          }
          var (from, to) := TransferMoney(released.value.0, released.value.1.amount, other);
          budget := from;
          other := to;
        } else {
          var released := ReleaseBudgetAllocation(other, ref.value);
          if released.Err? {
            return Err(released.error);
          }
          var (from, to) := TransferMoney(released.value.0, released.value.1.amount, budget);
          other := from;
          budget := to;
        }
      }
      transactions := transactions + [Transaction(input, now)];
      if |transactions| > MaxTransactions {
        transactions := transactions[1..];
      }
      r := Ok(other);
    }

    /** The per-commodity loop of `addModule`: add a module's production
        and consumption to the facility's, one commodity at a time. */
    method AddProduction(add: map<Commodity, PAC>)
      requires Total(pac) && Total(add)
      modifies this`pac
      ensures pac == Combined(old(pac), add)
    {
      var before := pac;
      ghost var target := Combined(before, add);
      var p := pac;
      var i := 0;
      while i < |AllCommodities|
        invariant 0 <= i <= |AllCommodities|
        invariant Total(p)
        invariant forall c: Commodity :: p[c] == if c in AllCommodities[..i] then target[c] else before[c]
      {
        var c := AllCommodities[i];
        AddedOne(i);
        p := p[c := p[c].(produces := p[c].produces + add[c].produces)];
        p := p[c := p[c].(consumes := p[c].consumes + add[c].consumes)];
        assert p[c] == target[c];
        i := i + 1;
      }
      AllCommoditiesListed();
      assert AllCommodities[..i] == AllCommodities;
      pac := p;
    }

    /** Raising the capacity leaves every reservation and every available
        amount as it was. */
    static lemma CapacityKeepsStorage(s: Storage, max: int)
      requires ValidStorage(s)
      ensures ValidStorage(s.(max := max))
    {
      assert forall c: Commodity :: AvailableWares(s.(max := max), c) == AvailableWares(s, c);
    }

    /** `addModule`: append the module, add its production and consumption
        to the facility's per commodity, add its storage bonus to the
        capacity, and republish the offers. */
    method AddModule(m: ModuleRecord)
      requires Valid()
      requires m.production.Some? ==> Total(m.production.value)
      modifies this`modules, this`pac, this`storage, this`offers
      ensures Valid()
      ensures modules == old(modules) + [m]
      ensures pac == if m.production.Some? then Combined(old(pac), m.production.value) else old(pac)
      ensures storage == old(storage).(max := old(storage).max + (if m.storageBonus.Some? then m.storageBonus.value else 0))
      ensures offers == Some(OffersFor(pac, storage, budget, old(offers)))
    {
      Install(m);
      CreateOffers();
    }

    /** The first part of `addModule`, before the offers are republished. */
    method Install(m: ModuleRecord)
      requires Valid()
      requires m.production.Some? ==> Total(m.production.value)
      modifies this`modules, this`pac, this`storage
      ensures Valid()
      ensures modules == old(modules) + [m]
      ensures pac == if m.production.Some? then Combined(old(pac), m.production.value) else old(pac)
      ensures storage == old(storage).(max := old(storage).max + (if m.storageBonus.Some? then m.storageBonus.value else 0))
    {
      ghost var before := modules;
      var ms := modules + [m];
      assert ModulesTotal(ms) by {
        forall i | 0 <= i < |ms| && ms[i].production.Some?
          ensures Total(ms[i].production.value)
        {
          if i < |before| {
            assert ms[i] == before[i];
          }
        }
      }
      modules := ms;
      if m.production.Some? {
        AddProduction(m.production.value);
      }
      if m.storageBonus.Some? {
        CapacityKeepsStorage(storage, storage.max + m.storageBonus.value);
        storage := storage.(max := storage.max + m.storageBonus.value);
      }
    }

    /** `adjustPrices`: the demand since the last adjustment decides the
        direction of each offer's nudge; the loop visits the commodities in
        order on the live offers, so a sell floor (its production cost) sees
        the prices already moved. Stops with an error where a production
        cost cannot be computed. */
    method AdjustPrices(now: int) returns (r: Result<()>)
      requires Valid()
      modifies this`offers, this`lastPriceAdjustTime, this`lastPriceAdjustCommodities
      ensures Valid()
      ensures var quantities := Quantities(old(transactions), old(lastPriceAdjustTime), old(offers).value);
        var changes := Changes(quantities, old(lastPriceAdjustCommodities));
        var outcome := AdjustFrom(AllCommodities, modules, old(offers).value, storage, changes);
        && offers == Some(outcome.offers)
        && (r.Err? <==> outcome.failed)
        && (r.Err? ==> r.error == StackOverflow
                       && lastPriceAdjustTime == old(lastPriceAdjustTime)
                       && lastPriceAdjustCommodities == old(lastPriceAdjustCommodities))
        && (r.Ok? ==> lastPriceAdjustTime == now && lastPriceAdjustCommodities == quantities)
    {
      var quantities := Quantities(transactions, lastPriceAdjustTime, offers.value);
      var changes := Changes(quantities, lastPriceAdjustCommodities);
      var outcome := AdjustAll(modules, offers.value, storage, changes);
      assert Total(outcome.offers) && Total(quantities);
      offers := Some(outcome.offers);
      if outcome.failed {
        assert Valid();
        return Err(StackOverflow);
      }
      lastPriceAdjustCommodities := quantities;
      lastPriceAdjustTime := now;
      r := Ok(());
      assert Valid();
    }
  }
}
