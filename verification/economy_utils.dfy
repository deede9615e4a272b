/** Pure helpers of the facility economy: the money a facility's buy offers
    need, whether a module can run a production cycle, the most profitable
    trade partner for a commodity and the closest asteroid still to mine. */
module EconomyUtils {
  import opened Common
  import opened Ledger
  import opened TradeTypes
  import opened FacilityModules

  // ---------------------------------------------------------------------------
  // Planned budget

  /** What one offer asks for in money: a buy offer its quantity times its
      price, a sell offer nothing. */
  function OfferCost(o: Offer): int
  {
    (if o.kind == Sell then 0 else o.quantity) * o.price
  }

  function PlannedOver(cs: seq<Commodity>, offers: map<Commodity, Offer>): int
    requires Total(offers)
  {
    if cs == [] then 0 else OfferCost(offers[cs[0]]) + PlannedOver(cs[1..], offers)
  }

  /** `getPlannedBudget`: the money needed to fulfil every buy offer. */
  function PlannedBudget(offers: map<Commodity, Offer>): int
    requires Total(offers)
  {
    PlannedOver(AllCommodities, offers)
  }

  lemma {:induction false} PlannedOverIgnoresSell(cs: seq<Commodity>, offers: map<Commodity, Offer>, c: Commodity, o: Offer)
    requires Total(offers) && offers[c].kind == Sell && o.kind == Sell
    ensures PlannedOver(cs, offers[c := o]) == PlannedOver(cs, offers)
  {
    if cs != [] {
      PlannedOverIgnoresSell(cs[1..], offers, c, o);
    }
  }

  /** Sell offers do not count: replacing one sell offer by another keeps the planned budget. */
  lemma PlannedBudgetIgnoresSell(offers: map<Commodity, Offer>, c: Commodity, o: Offer)
    requires Total(offers) && offers[c].kind == Sell && o.kind == Sell
    ensures PlannedBudget(offers[c := o]) == PlannedBudget(offers)
  {
    PlannedOverIgnoresSell(AllCommodities, offers, c, o);
  }

  lemma {:induction false} PlannedOverNonNegative(cs: seq<Commodity>, offers: map<Commodity, Offer>)
    requires Total(offers)
    requires forall c: Commodity :: offers[c].quantity >= 0 && offers[c].price >= 0
    ensures PlannedOver(cs, offers) >= 0
  {
    if cs != [] {
      PlannedOverNonNegative(cs[1..], offers);
    }
  }

  /** With non-negative quantities and prices the planned budget is never negative. */
  lemma PlannedBudgetNonNegative(offers: map<Commodity, Offer>)
    requires Total(offers)
    requires forall c: Commodity :: offers[c].quantity >= 0 && offers[c].price >= 0
    ensures PlannedBudget(offers) >= 0
  {
    PlannedOverNonNegative(AllCommodities, offers);
  }

  // ---------------------------------------------------------------------------
  // Ability to produce

  /** One commodity's condition for running `pac`: enough stored to cover
      its consumption and, when the module produces it, stock below quota. */
  predicate CanCover(storage: Storage, quota: map<Commodity, int>, pac: map<Commodity, PAC>, c: Commodity)
    requires Total(storage.stored) && Total(quota) && Total(pac)
  {
    && HasSufficientStorage(storage, c, pac[c].consumes)
    && (pac[c].produces != 0 ==> AvailableWares(storage, c) < quota[c])
  }

  function CanCoverAll(cs: seq<Commodity>, storage: Storage, quota: map<Commodity, int>, pac: map<Commodity, PAC>)
    : (r: bool)
    requires Total(storage.stored) && Total(quota) && Total(pac)
    ensures r <==> forall i :: 0 <= i < |cs| ==> CanCover(storage, quota, pac, cs[i])
  {
    if cs == [] then true
    else
      var rest := CanCoverAll(cs[1..], storage, quota, pac);
      assert forall i :: 1 <= i < |cs| ==> cs[i] == cs[1..][i - 1];
      CanCover(storage, quota, pac, cs[0]) && rest
  }

  /** `createIsAbleToProduce(facility)(module)`: every commodity is covered. */
  function IsAbleToProduce(storage: Storage, quota: map<Commodity, int>, pac: map<Commodity, PAC>): (r: bool)
    requires Total(storage.stored) && Total(quota) && Total(pac)
    ensures r <==> forall c: Commodity :: CanCover(storage, quota, pac, c)
  {
    AllCommoditiesListed();
    var r := CanCoverAll(AllCommodities, storage, quota, pac);
    assert r ==> forall c: Commodity :: CanCover(storage, quota, pac, c) by {
      forall c: Commodity ensures r ==> CanCover(storage, quota, pac, c) {
        var i :| 0 <= i < |AllCommodities| && AllCommodities[i] == c;
      }
    }
    r
  }

  // ---------------------------------------------------------------------------
  // Most profitable partner

  /** The parts of a facility that partner selection reads. */
  datatype FacilityView = FacilityView(id: EntityId, owner: EntityId, offers: map<Commodity, Offer>)

  datatype Scored = Scored(facility: FacilityView, profit: int)

  const SameOwnerProfit: int := 100_000_000_000_000_000_000

  /** Profit of trading `c` between `f` and `g`: a partner with the same
      owner always wins, otherwise the price gap in `f`'s favour. */
  function Profit(f: FacilityView, g: FacilityView, c: Commodity): int
    requires c in f.offers && c in g.offers
  {
    if f.owner == g.owner then SameOwnerProfit
    else (f.offers[c].price - g.offers[c].price) * (if f.offers[c].kind == Buy then 1 else -1)
  }

  /** A partner publishes the opposite kind of offer with something to trade. */
  predicate IsCandidate(f: FacilityView, g: FacilityView, c: Commodity)
    requires c in f.offers && c in g.offers
  {
    g.offers[c].kind != f.offers[c].kind && g.offers[c].quantity > 0
  }

  predicate AllOffer(fs: seq<FacilityView>, c: Commodity)
  {
    forall g :: g in fs ==> c in g.offers
  }

  function Candidates(f: FacilityView, fs: seq<FacilityView>, c: Commodity): (r: seq<Scored>)
    requires c in f.offers && AllOffer(fs, c)
    ensures forall s :: s in r <==>
              (s.facility in fs && IsCandidate(f, s.facility, c) && s.profit == Profit(f, s.facility, c))
  {
    if fs == [] then []
    else
      var rest := Candidates(f, fs[1..], c);
      if IsCandidate(f, fs[0], c) then [Scored(fs[0], Profit(f, fs[0], c))] + rest else rest
  }

  function ProfitKey(s: Scored): real
  {
    s.profit as real
  }

  function NearBestList(ss: seq<Scored>, best: int): (r: seq<FacilityView>)
    ensures forall g :: g in r <==> exists s :: s in ss && s.facility == g && 20 * s.profit >= 19 * best
  {
    if ss == [] then []
    else
      var rest := NearBestList(ss[1..], best);
      assert forall s :: s in ss[1..] ==> s in ss;
      assert forall s :: s in ss ==> s == ss[0] || s in ss[1..];
      if 20 * ss[0].profit >= 19 * best then [ss[0].facility] + rest else rest
  }

  /** Within 95% of every candidate's profit, hence of the best one. */
  predicate NearBest(f: FacilityView, fs: seq<FacilityView>, c: Commodity, g: FacilityView)
    requires c in f.offers && AllOffer(fs, c) && c in g.offers
  {
    forall h :: h in fs && IsCandidate(f, h, c) ==> 20 * Profit(f, g, c) >= 19 * Profit(f, h, c)
  }

  /** The candidates ranked by profit, highest first (`sortBy` then `reverse`). */
  function Ranking(f: FacilityView, fs: seq<FacilityView>, c: Commodity): seq<Scored>
    requires c in f.offers && AllOffer(fs, c)
  {
    Reverse(SortBy(Candidates(f, fs, c), ProfitKey))
  }

  /** `getFacilityWithMostProfit`: nothing when no candidate makes a
      positive profit; otherwise, among the candidates within 95% of the best
      profit, the one farthest away. */
  function FacilityWithMostProfit(f: FacilityView, fs: seq<FacilityView>, c: Commodity, distance: FacilityView -> real)
    : (r: Option<FacilityView>)
    requires c in f.offers && AllOffer(fs, c)
    ensures r.None? <==> forall g :: g in fs && IsCandidate(f, g, c) ==> Profit(f, g, c) <= 0
    ensures r.Some? ==> r.value in fs && IsCandidate(f, r.value, c) && NearBest(f, fs, c, r.value)
    ensures r.Some? ==> forall g :: g in fs && IsCandidate(f, g, c) && NearBest(f, fs, c, g)
                                    ==> distance(g) <= distance(r.value)
  {
    var byProfit := Ranking(f, fs, c);
    RankingHead(f, fs, c);
    if byProfit == [] || byProfit[0].profit <= 0 then
      None
    else
      var near := NearBestList(byProfit, byProfit[0].profit);
      assert byProfit[0].facility in near;
      FarthestNear(f, fs, c, distance);
      Some(Reverse(SortBy(near, distance))[0])
  }

  lemma ReverseMultiset<T>(s: seq<T>)
    ensures multiset(Reverse(s)) == multiset(s)
  {
    if s != [] {
      assert Reverse(s) == Reverse(s[1..]) + [s[0]];
      ReverseMultiset(s[1..]);
      assert s == [s[0]] + s[1..];
    }
  }

  /** The head of `Reverse(SortBy(s, key))` has the largest key and comes from `s`. */
  lemma LastIsMax<T>(s: seq<T>, key: T -> real)
    requires s != []
    ensures var r := Reverse(SortBy(s, key));
      r != [] && r[0] in s && forall x :: x in s ==> key(x) <= key(r[0])
  {
    var sorted := SortBy(s, key);
    SortByIsSorted(s, key);
    assert sorted[|sorted| - 1] in multiset(s);
    forall x | x in s ensures key(x) <= key(sorted[|sorted| - 1]) {
      assert x in multiset(sorted);
      var i :| 0 <= i < |sorted| && sorted[i] == x;
    }
  }

  /** The ranking holds exactly the candidates; its head has the best profit,
      and that is positive iff some candidate's profit is. */
  lemma RankingHead(f: FacilityView, fs: seq<FacilityView>, c: Commodity)
    requires c in f.offers && AllOffer(fs, c)
    ensures var rk := Ranking(f, fs, c);
      && (forall s :: s in rk <==> s in Candidates(f, fs, c))
      && (rk != [] ==> rk[0] in Candidates(f, fs, c))
      && (rk != [] ==> forall g :: g in fs && IsCandidate(f, g, c) ==> Profit(f, g, c) <= rk[0].profit)
      && ((rk == [] || rk[0].profit <= 0) <==> forall g :: g in fs && IsCandidate(f, g, c) ==> Profit(f, g, c) <= 0)
  {
    var scored := Candidates(f, fs, c);
    var rk := Ranking(f, fs, c);
    ReverseMultiset(SortBy(scored, ProfitKey));
    assert forall s :: s in rk <==> s in multiset(scored);
    forall g | g in fs && IsCandidate(f, g, c) ensures Scored(g, Profit(f, g, c)) in rk {
      assert Scored(g, Profit(f, g, c)) in scored;
    }
    if rk != [] {
      LastIsMax(scored, ProfitKey);
    }
  }

  /** The chosen partner is the farthest of the near-best candidates. */
  lemma FarthestNear(f: FacilityView, fs: seq<FacilityView>, c: Commodity, distance: FacilityView -> real)
    requires c in f.offers && AllOffer(fs, c)
    requires Ranking(f, fs, c) != [] && Ranking(f, fs, c)[0].profit > 0
    ensures var rk := Ranking(f, fs, c);
      var near := NearBestList(rk, rk[0].profit);
      && near != []
      && var r := Reverse(SortBy(near, distance))[0];
      && r in fs && c in r.offers && IsCandidate(f, r, c) && NearBest(f, fs, c, r)
      && forall g :: g in fs && IsCandidate(f, g, c) && NearBest(f, fs, c, g) ==> distance(g) <= distance(r)
  {
    var rk := Ranking(f, fs, c);
    var best := rk[0].profit;
    RankingHead(f, fs, c);
    var scored := Candidates(f, fs, c);
    var near := NearBestList(rk, best);
    assert rk[0].facility in near;
    LastIsMax(near, distance);
    var r := Reverse(SortBy(near, distance))[0];
    var s :| s in rk && s.facility == r && 20 * s.profit >= 19 * best;
    assert s in scored;
    forall h | h in fs && IsCandidate(f, h, c) ensures 20 * Profit(f, r, c) >= 19 * Profit(f, h, c) {
      assert Profit(f, h, c) <= best;
    }
    forall g | g in fs && IsCandidate(f, g, c) && NearBest(f, fs, c, g) ensures distance(g) <= distance(r) {
      assert rk[0] in scored;
      assert 20 * Profit(f, g, c) >= 19 * Profit(f, rk[0].facility, c);
      assert Scored(g, Profit(f, g, c)) in rk;
      assert g in near;
    }
  }

  // ---------------------------------------------------------------------------
  // Closest mineable asteroid

  datatype Asteroid = Asteroid(id: EntityId, mined: bool)

  /** lodash `minBy` over the unmined asteroids: the first one at the smallest distance. */
  function ClosestMineable(rocks: seq<Asteroid>, distance: Asteroid -> real): (r: Option<Asteroid>)
    ensures r.None? <==> forall a :: a in rocks ==> a.mined
    ensures r.Some? ==> r.value in rocks && !r.value.mined
    ensures r.Some? ==> forall a :: a in rocks && !a.mined ==> distance(r.value) <= distance(a)
  {
    if rocks == [] then None
    else
      var rest := ClosestMineable(rocks[1..], distance);
      assert forall a :: a in rocks <==> a == rocks[0] || a in rocks[1..];
      if rocks[0].mined then rest
      else if rest.None? || distance(rocks[0]) <= distance(rest.value) then Some(rocks[0])
      else rest
  }
}
