/** Shared vocabulary of the simulation: optional values, results carrying the
    simulation's error kinds, the commodity enumeration, sums over commodities,
    the limit helpers and the stable ascending sort the economy code relies on. */
module Common {

  type EntityId = nat

  datatype Option<+T> = None | Some(value: T)

  /** The error kinds the simulation throws. `MissingComponent` stands for a
      failed `requireComponents`, `NullReference` for a property read through
      `null` or `undefined` (a `TypeError`), `StackOverflow` for a recursion
      that never ends (the engine's call stack overflows). */
  datatype Error =
    | NegativeQuantity
    | NonPositiveAmount
    | InvalidOfferType
    | ExceededOfferQuantity
    | InsufficientFunds
    | InsufficientCapacity
    | AllocationNotFound
    | EntityNotFound
    | MissingComponent
    | NullReference
    | StackOverflow

  datatype Result<+T> = Ok(value: T) | Err(error: Error)

  datatype OfferType = Buy | Sell

  function Opposite(t: OfferType): (r: OfferType)
    ensures r != t
  {
    if t == Buy then Sell else Buy
  }

  /** The commodities traded and produced by the facility-module table. */
  datatype Commodity = Food | Fuel | Fuelium | HullPlates | Ice | Metals | Ore | Water

  const AllCommodities: seq<Commodity> := [Food, Fuel, Fuelium, HullPlates, Ice, Metals, Ore, Water]
  const CommoditySet: set<Commodity> := {Food, Fuel, Fuelium, HullPlates, Ice, Metals, Ore, Water}

  lemma CommodityListed(c: Commodity)
    ensures c in CommoditySet && c in AllCommodities
  {
  }

  lemma AllCommoditiesListed()
    ensures forall c: Commodity :: c in CommoditySet && c in AllCommodities
  {
    forall c: Commodity ensures c in CommoditySet && c in AllCommodities {
      CommodityListed(c);
    }
  }

  lemma AllCommoditiesDistinct()
    ensures forall i, j :: 0 <= i < j < |AllCommodities| ==> AllCommodities[i] != AllCommodities[j]
  {
  }

  /** Filtering the full commodity list keeps exactly the commodities
      satisfying the predicate. */
  lemma FilterAllCommodities(p: Commodity -> bool)
    ensures forall c: Commodity :: c in Filter(AllCommodities, p) <==> p(c)
  {
    AllCommoditiesListed();
  }

  /** The elements of `s` satisfying `p`, in order. */
  function Filter<T(!new)>(s: seq<T>, p: T -> bool): (r: seq<T>)
    ensures forall x :: x in r <==> x in s && p(x)
    ensures multiset(r) <= multiset(s)
  {
    if s == [] then []
    else
      assert s == [s[0]] + s[1..];
      (if p(s[0]) then [s[0]] else []) + Filter(s[1..], p)
  }

  /** A per-commodity record: defined for every commodity. */
  predicate Total<T>(m: map<Commodity, T>)
  {
    forall c: Commodity :: c in m
  }

  /** The `perCommodity(() => 0)` record. */
  function Zeros(): (m: map<Commodity, int>)
    ensures Total(m) && forall c: Commodity :: m[c] == 0
  {
    AllCommoditiesListed();
    map c | c in CommoditySet :: 0
  }

  /** `{ ...perCommodity(() => 0), [c]: q }`: zero everywhere except at `c`. */
  function Single(c: Commodity, q: int): (m: map<Commodity, int>)
    ensures Total(m) && m[c] == q
    ensures forall d: Commodity :: d != c ==> m[d] == 0
  {
    AllCommoditiesListed();
    map d | d in CommoditySet :: if d == c then q else 0
  }

  function SumSeq(s: seq<int>): int
  {
    if s == [] then 0 else s[0] + SumSeq(s[1..])
  }

  /** The sum of a per-commodity record over the listed commodities. */
  function SumOver(cs: seq<Commodity>, m: map<Commodity, int>): int
    requires Total(m)
  {
    if cs == [] then 0 else m[cs[0]] + SumOver(cs[1..], m)
  }

  function Sum(m: map<Commodity, int>): int
    requires Total(m)
  {
    SumOver(AllCommodities, m)
  }

  lemma {:induction false} SumOverNonNegative(cs: seq<Commodity>, m: map<Commodity, int>)
    requires Total(m) && forall c: Commodity :: m[c] >= 0
    ensures SumOver(cs, m) >= 0
  {
    if cs != [] {
      SumOverNonNegative(cs[1..], m);
    }
  }

  /** Summing `Single(c, q)` over a list holding `c` once gives `q`. */
  lemma {:induction false} SumOverSingle(cs: seq<Commodity>, c: Commodity, q: int)
    requires forall i, j :: 0 <= i < j < |cs| ==> cs[i] != cs[j]
    ensures SumOver(cs, Single(c, q)) == if c in cs then q else 0
  {
    if cs != [] {
      SumOverSingle(cs[1..], c, q);
      assert c in cs[1..] ==> cs[0] != c;
      assert c in cs ==> c == cs[0] || c in cs[1..];
    }
  }

  lemma SumSingle(c: Commodity, q: int)
    ensures Sum(Single(c, q)) == q
  {
    SumOverSingle(AllCommodities, c, q);
    CommodityListed(c);
  }

  /** `limitMin(x, bound)`: never below `bound`. */
  function LimitMin(x: int, bound: int): (r: int)
    ensures r >= bound && r >= x && (r == x || r == bound)
  {
    if x < bound then bound else x
  }

  /** `limitMax(x, bound)`: never above `bound`. */
  function LimitMax(x: int, bound: int): (r: int)
    ensures r <= bound && r <= x && (r == x || r == bound)
  {
    if x > bound then bound else x
  }

  /** `Math.floor(a / b)` for a positive divisor (Dafny's `/` is Euclidean,
      which agrees with the floor when the divisor is positive). */
  function FloorDiv(a: int, b: int): (r: int)
    requires b > 0
    ensures b * r <= a < b * (r + 1)
  {
    a / b
  }

  /** `Math.ceil(a / b)` for a positive divisor. */
  function CeilDiv(a: int, b: int): (r: int)
    requires b > 0
    ensures b * (r - 1) < a <= b * r
  {
    var f := (-a) / b;
    assert b * f <= -a < b * (f + 1);
    -f
  }

  // ---------------------------------------------------------------------------
  // Stable ascending sort by a key (`sortBy` of `@fxts/core` and of lodash), and reversal.

  /** Place `x` before the first element whose key is not smaller. */
  function Insert<T>(x: T, s: seq<T>, key: T -> real): (r: seq<T>)
    ensures |r| == |s| + 1 && multiset(r) == multiset(s) + multiset{x}
  {
    if s == [] then [x]
    else if key(x) <= key(s[0]) then [x] + s
    else
      assert s == [s[0]] + s[1..];
      [s[0]] + Insert(x, s[1..], key)
  }

  function SortBy<T>(s: seq<T>, key: T -> real): (r: seq<T>)
    ensures |r| == |s| && multiset(r) == multiset(s)
  {
    if s == [] then []
    else
      assert s == [s[0]] + s[1..];
      Insert(s[0], SortBy(s[1..], key), key)
  }

  predicate SortedBy<T>(s: seq<T>, key: T -> real)
  {
    forall i, j :: 0 <= i < j < |s| ==> key(s[i]) <= key(s[j])
  }

  /** The elements of `s` whose key is `k`, in their order in `s`. */
  function WithKey<T>(s: seq<T>, key: T -> real, k: real): seq<T>
  {
    if s == [] then []
    else (if key(s[0]) == k then [s[0]] else []) + WithKey(s[1..], key, k)
  }

  lemma {:induction false} InsertSorted<T>(x: T, s: seq<T>, key: T -> real)
    requires SortedBy(s, key)
    ensures SortedBy(Insert(x, s, key), key)
  {
    if s != [] && key(x) > key(s[0]) {
      var t := s[1..];
      assert SortedBy(t, key) by {
        forall i, j | 0 <= i < j < |t| ensures key(t[i]) <= key(t[j]) {
          assert t[i] == s[i + 1] && t[j] == s[j + 1];
        }
      }
      InsertSorted(x, t, key);
      var r := Insert(x, t, key);
      forall j | 0 <= j < |r| ensures key(s[0]) <= key(r[j]) {
        var y := r[j];
        assert y in multiset(r);
        if y != x {
          assert y in multiset(t);
          var m :| 0 <= m < |t| && t[m] == y;
          assert s[m + 1] == y;
        }
      }
      ConsSorted(s[0], r, key);
    }
  }

  /** A sorted sequence stays sorted under a head no greater than any element. */
  lemma ConsSorted<T>(a: T, r: seq<T>, key: T -> real)
    requires SortedBy(r, key)
    requires forall j :: 0 <= j < |r| ==> key(a) <= key(r[j])
    ensures SortedBy([a] + r, key)
  {
    forall i, j | 0 <= i < j < |[a] + r| ensures key(([a] + r)[i]) <= key(([a] + r)[j]) {
      assert ([a] + r)[j] == r[j - 1];
      if i > 0 {
        assert ([a] + r)[i] == r[i - 1];
      }
    }
  }

  lemma {:induction false} SortByIsSorted<T>(s: seq<T>, key: T -> real)
    ensures SortedBy(SortBy(s, key), key)
  {
    if s != [] {
      SortByIsSorted(s[1..], key);
      InsertSorted(s[0], SortBy(s[1..], key), key);
    }
  }

  lemma {:induction false} WithKeyAppend<T>(a: seq<T>, b: seq<T>, key: T -> real, k: real)
    ensures WithKey(a + b, key, k) == WithKey(a, key, k) + WithKey(b, key, k)
  {
    if a != [] {
      assert (a + b)[1..] == a[1..] + b;
      WithKeyAppend(a[1..], b, key, k);
    } else {
      assert a + b == b;
    }
  }

  lemma WithKeySingleton<T>(y: T, key: T -> real, k: real)
    ensures WithKey([y], key, k) == if key(y) == k then [y] else []
  {
    assert [y][1..] == [];
  }

  /** Inserting `x` keeps every key class of `s` and puts `x` at the head of its own. */
  lemma {:induction false} InsertWithKey<T>(x: T, s: seq<T>, key: T -> real, k: real)
    requires SortedBy(s, key)
    ensures WithKey(Insert(x, s, key), key, k)
         == (if key(x) == k then [x] else []) + WithKey(s, key, k)
  {
    if s == [] {
      WithKeySingleton(x, key, k);
    } else if key(x) <= key(s[0]) {
      WithKeyAppend([x], s, key, k);
      WithKeySingleton(x, key, k);
    } else {
      var t := s[1..];
      assert SortedBy(t, key) by {
        forall i, j | 0 <= i < j < |t| ensures key(t[i]) <= key(t[j]) {
          assert t[i] == s[i + 1] && t[j] == s[j + 1];
        }
      }
      var xs := if key(x) == k then [x] else [];
      var h := WithKey([s[0]], key, k);
      InsertWithKey(x, t, key, k);
      assert Insert(x, s, key) == [s[0]] + Insert(x, t, key);
      WithKeyAppend([s[0]], Insert(x, t, key), key, k);
      WithKeyAppend([s[0]], t, key, k);
      assert s == [s[0]] + t;
      WithKeySingleton(s[0], key, k);
      assert key(x) == k ==> h == [];
      calc {
        WithKey(Insert(x, s, key), key, k);
        h + WithKey(Insert(x, t, key), key, k);
        h + (xs + WithKey(t, key, k));
        { assert xs == [] || h == []; }
        xs + (h + WithKey(t, key, k));
        xs + WithKey(s, key, k);
      }
    }
  }

  /** `SortBy` is stable: elements with equal keys keep their relative order. */
  lemma {:induction false} SortByStable<T>(s: seq<T>, key: T -> real, k: real)
    ensures WithKey(SortBy(s, key), key, k) == WithKey(s, key, k)
  {
    if s != [] {
      SortByStable(s[1..], key, k);
      SortByIsSorted(s[1..], key);
      InsertWithKey(s[0], SortBy(s[1..], key), key, k);
    }
  }

  function Reverse<T>(s: seq<T>): (r: seq<T>)
    ensures |r| == |s| && forall i :: 0 <= i < |s| ==> r[i] == s[|s| - 1 - i]
  {
    if s == [] then [] else Reverse(s[1..]) + [s[0]]
  }

  /** Sequences with the same elements counted with multiplicity have the same members. */
  lemma SameMembers<T>(a: seq<T>, b: seq<T>)
    requires multiset(a) == multiset(b)
    ensures forall x :: x in a <==> x in b
  {
    forall x ensures x in a <==> x in b {
      assert x in a <==> x in multiset(a);
      assert x in b <==> x in multiset(b);
    }
  }
}
