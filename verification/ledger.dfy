/** The allocation ledgers behind every trade: a budget ledger over money and a
    storage ledger over per-commodity quantities. Each ledger keeps a list of
    reservations `(id, amount, tradeId)`; what is available is the raw total
    minus what is reserved. Creating a reservation beyond what is available
    fails and changes nothing; releasing one restores exactly what it took;
    releasing an id that is not (or no longer) reserved fails. */
module Ledger {
  import opened Common

  datatype AllocationKind = Incoming | Outgoing

  /** The `tradeId` string `entity:initiator:type:time` shared by both halves of one trade. */
  datatype TradeId = TradeId(entity: EntityId, initiator: EntityId, kind: OfferType, time: int)

  datatype Allocation<A> = Allocation(id: nat, amount: A, issued: int, tradeId: Option<TradeId>)

  /** What a storage reservation holds: its direction and a per-commodity amount. */
  datatype StorageAmount = StorageAmount(kind: AllocationKind, quantities: map<Commodity, int>)

  type BudgetAllocation = Allocation<int>
  type StorageAllocation = Allocation<StorageAmount>

  // ---------------------------------------------------------------------------
  // Lists of reservations

  predicate HasId<A>(s: seq<Allocation<A>>, id: nat)
  {
    exists i :: 0 <= i < |s| && s[i].id == id
  }

  predicate DistinctIds<A>(s: seq<Allocation<A>>)
  {
    forall i, j :: 0 <= i < j < |s| ==> s[i].id != s[j].id
  }

  /** Every id was issued by the ledger: positive and below its next id. */
  predicate IdsBelow<A>(s: seq<Allocation<A>>, nextId: nat)
  {
    forall i :: 0 <= i < |s| ==> 0 < s[i].id < nextId
  }

  function IndexOf<A>(s: seq<Allocation<A>>, id: nat): (r: Option<nat>)
    ensures r.Some? ==> r.value < |s| && s[r.value].id == id
    ensures r.None? <==> !HasId(s, id)
  {
    if s == [] then None
    else if s[0].id == id then Some(0)
    else
      match IndexOf(s[1..], id)
      case None =>
        assert forall i :: 1 <= i < |s| ==> s[i] == s[1..][i - 1];
        None
      case Some(k) => Some(k + 1)
  }

  function RemoveAt<A>(s: seq<Allocation<A>>, i: nat): seq<Allocation<A>>
    requires i < |s|
  {
    s[..i] + s[i + 1..]
  }

  /** Remove the reservation with the given id; `AllocationNotFound` when there is none. */
  function Release<A>(s: seq<Allocation<A>>, id: nat): (r: Result<(seq<Allocation<A>>, Allocation<A>)>)
    ensures r.Err? <==> !HasId(s, id)
    ensures r.Err? ==> r.error == AllocationNotFound
    ensures r.Ok? ==> exists i :: 0 <= i < |s| && s[i].id == id
                          && r.value.1 == s[i] && r.value.0 == RemoveAt(s, i)
  {
    match IndexOf(s, id)
    case None => Err(AllocationNotFound)
    case Some(i) => Ok((RemoveAt(s, i), s[i]))
  }

  /** Removing one element keeps ids distinct and issued. */
  lemma RemoveAtKeepsIds<A>(s: seq<Allocation<A>>, i: nat, nextId: nat)
    requires i < |s| && DistinctIds(s) && IdsBelow(s, nextId)
    ensures DistinctIds(RemoveAt(s, i)) && IdsBelow(RemoveAt(s, i), nextId)
    ensures !HasId(RemoveAt(s, i), s[i].id)
    ensures forall a :: a in RemoveAt(s, i) <==> a in s && a.id != s[i].id
  {
    var r := RemoveAt(s, i);
    assert forall k :: 0 <= k < |r| ==> r[k] == if k < i then s[k] else s[k + 1];
    forall a | a in s && a.id != s[i].id ensures a in r {
      var k :| 0 <= k < |s| && s[k] == a;
      assert k != i;
      if k < i { assert r[k] == a; } else { assert r[k - 1] == a; }
    }
  }

  /** The reservations whose trade is not in `trades`, in their order. */
  function WithoutTrades<A(!new)>(s: seq<Allocation<A>>, trades: set<TradeId>): (r: seq<Allocation<A>>)
    ensures forall a :: a in r <==> a in s && !(a.tradeId.Some? && a.tradeId.value in trades)
    ensures |r| <= |s|
  {
    if s == [] then []
    else
      assert forall a :: a in s <==> a == s[0] || a in s[1..];
      if s[0].tradeId.Some? && s[0].tradeId.value in trades then WithoutTrades(s[1..], trades)
      else [s[0]] + WithoutTrades(s[1..], trades)
  }

  /** Sum of a weight over a list of reservations. */
  function SumBy<A>(s: seq<Allocation<A>>, w: A -> int): int
  {
    if s == [] then 0 else w(s[0].amount) + SumBy(s[1..], w)
  }

  lemma {:induction false} SumByAppend<A>(s: seq<Allocation<A>>, a: Allocation<A>, w: A -> int)
    ensures SumBy(s + [a], w) == SumBy(s, w) + w(a.amount)
  {
    if s != [] {
      assert (s + [a])[1..] == s[1..] + [a];
      SumByAppend(s[1..], a, w);
    }
  }

  lemma {:induction false} SumByRemoveAt<A>(s: seq<Allocation<A>>, i: nat, w: A -> int)
    requires i < |s|
    ensures SumBy(RemoveAt(s, i), w) == SumBy(s, w) - w(s[i].amount)
  {
    if i == 0 {
      assert RemoveAt(s, 0) == s[1..];
    } else {
      assert RemoveAt(s, i)[1..] == RemoveAt(s[1..], i - 1);
      SumByRemoveAt(s[1..], i - 1, w);
    }
  }

  lemma {:induction false} SumByNonNegative<A>(s: seq<Allocation<A>>, w: A -> int)
    requires forall i :: 0 <= i < |s| ==> w(s[i].amount) >= 0
    ensures SumBy(s, w) >= 0
  {
    if s != [] {
      SumByNonNegative(s[1..], w);
    }
  }

  /** Appending a reservation with a fresh id, then releasing that id, gives back the list. */
  lemma ReleaseLast<A>(s: seq<Allocation<A>>, a: Allocation<A>)
    requires !HasId(s, a.id)
    ensures Release(s + [a], a.id) == Ok((s, a))
  {
    var t := s + [a];
    assert t[|s|].id == a.id;
    var i := IndexOf(t, a.id).value;
    assert i == |s|;
    assert RemoveAt(t, i) == s;
  }

  // ---------------------------------------------------------------------------
  // Budget ledger

  datatype Budget = Budget(money: int, allocations: seq<BudgetAllocation>, nextId: nat)

  function MoneyWeight(x: int): int { x }

  function Reserved(s: seq<BudgetAllocation>): int
  {
    SumBy(s, MoneyWeight)
  }

  /** `budget.available`: money not yet promised to any trade. */
  function Available(b: Budget): int
  {
    b.money - Reserved(b.allocations)
  }

  predicate ValidBudget(b: Budget)
  {
    && b.nextId > 0
    && DistinctIds(b.allocations)
    && IdsBelow(b.allocations, b.nextId)
    && (forall i :: 0 <= i < |b.allocations| ==> b.allocations[i].amount >= 0)
    && Available(b) >= 0
  }

  /** `newBudgetAllocation`: reserve `amount` of the available money. */
  function NewBudgetAllocation(b: Budget, amount: int, issued: int, tradeId: Option<TradeId>)
    : (r: Result<(Budget, BudgetAllocation)>)
    ensures r.Err? <==> amount < 0 || amount > Available(b)
    ensures r.Err? ==> r.error == (if amount < 0 then NegativeQuantity else InsufficientFunds)
    ensures r.Ok? ==> var (b', a) := r.value;
      && a.amount == amount && a.tradeId == tradeId && a.issued == issued
      && b'.money == b.money
      && b'.allocations == b.allocations + [a]
      && Available(b') == Available(b) - amount
      && (ValidBudget(b) ==> ValidBudget(b') && !HasId(b.allocations, a.id))
  {
    if amount < 0 then Err(NegativeQuantity)
    else if amount > Available(b) then Err(InsufficientFunds)
    else
      var a := Allocation(b.nextId, amount, issued, tradeId);
      SumByAppend(b.allocations, a, MoneyWeight);
      var b' := b.(allocations := b.allocations + [a], nextId := b.nextId + 1);
      assert ValidBudget(b) ==> !HasId(b.allocations, a.id);
      Ok((b', a))
  }

  /** `releaseBudgetAllocation`: drop a reservation, giving its money back to `available`. */
  function ReleaseBudgetAllocation(b: Budget, id: nat): (r: Result<(Budget, BudgetAllocation)>)
    ensures r.Err? <==> !HasId(b.allocations, id)
    ensures r.Err? ==> r.error == AllocationNotFound
    ensures r.Ok? ==> var (b', a) := r.value;
      && a.id == id && a in b.allocations
      && b'.money == b.money && b'.nextId == b.nextId
      && Available(b') == Available(b) + a.amount
      && (ValidBudget(b) ==>
            ValidBudget(b') && !HasId(b'.allocations, id)
            && forall x :: x in b'.allocations <==> x in b.allocations && x.id != id)
  {
    match Release(b.allocations, id)
    case Err(e) => Err(e)
    case Ok((rest, a)) =>
      var i :| 0 <= i < |b.allocations| && b.allocations[i].id == id
               && a == b.allocations[i] && rest == RemoveAt(b.allocations, i);
      SumByRemoveAt(b.allocations, i, MoneyWeight);
      BudgetRemoveAtValid(b, i);
      Ok((b.(allocations := rest), a))
  }

  lemma BudgetRemoveAtValid(b: Budget, i: nat)
    requires i < |b.allocations|
    ensures var b' := b.(allocations := RemoveAt(b.allocations, i));
      ValidBudget(b) ==>
        ValidBudget(b') && !HasId(b'.allocations, b.allocations[i].id)
        && forall x :: x in b'.allocations <==> x in b.allocations && x.id != b.allocations[i].id
  {
    var rest := RemoveAt(b.allocations, i);
    if ValidBudget(b) {
      RemoveAtKeepsIds(b.allocations, i, b.nextId);
      SumByRemoveAt(b.allocations, i, MoneyWeight);
      forall k | 0 <= k < |rest| ensures rest[k].amount >= 0 {
        assert rest[k] in b.allocations;
      }
    }
  }

  /** `transferMoney`: move raw money from one budget to another. */
  function TransferMoney(from: Budget, amount: int, to: Budget): (r: (Budget, Budget))
    ensures r.0.money + r.1.money == from.money + to.money
    ensures r.0.money == from.money - amount
    ensures r.0.allocations == from.allocations && r.1.allocations == to.allocations
  {
    (from.(money := from.money - amount), to.(money := to.money + amount))
  }

  /** A reservation released right after it was made restores the budget exactly. */
  lemma BudgetReleaseUndoesNew(b: Budget, amount: int, issued: int, tradeId: Option<TradeId>)
    requires ValidBudget(b)
    requires NewBudgetAllocation(b, amount, issued, tradeId).Ok?
    ensures var (b1, a) := NewBudgetAllocation(b, amount, issued, tradeId).value;
      && ReleaseBudgetAllocation(b1, a.id).Ok?
      && ReleaseBudgetAllocation(b1, a.id).value.0.allocations == b.allocations
      && Available(ReleaseBudgetAllocation(b1, a.id).value.0) == Available(b)
  {
    var (b1, a) := NewBudgetAllocation(b, amount, issued, tradeId).value;
    ReleaseLast(b.allocations, a);
  }

  /** Releasing the same reservation twice fails the second time. */
  lemma BudgetDoubleReleaseFails(b: Budget, id: nat)
    requires ValidBudget(b) && ReleaseBudgetAllocation(b, id).Ok?
    ensures ReleaseBudgetAllocation(ReleaseBudgetAllocation(b, id).value.0, id) == Err(AllocationNotFound)
  {
  }

  // ---------------------------------------------------------------------------
  // Storage ledger

  datatype Storage = Storage(
    max: int,
    stored: map<Commodity, int>,
    quota: map<Commodity, int>,
    allocations: seq<StorageAllocation>,
    nextId: nat)

  function OutgoingWeight(c: Commodity): StorageAmount -> int
  {
    (x: StorageAmount) => if x.kind == Outgoing && c in x.quantities then x.quantities[c] else 0
  }

  function IncomingWeight(x: StorageAmount): int
  {
    if x.kind == Incoming && Total(x.quantities) then Sum(x.quantities) else 0
  }

  predicate WellFormedAmount(x: StorageAmount)
  {
    Total(x.quantities) && forall c: Commodity :: x.quantities[c] >= 0
  }

  /** `availableWares[c]`: stored minus what outgoing reservations promised away. */
  function AvailableWares(s: Storage, c: Commodity): int
    requires Total(s.stored)
  {
    s.stored[c] - SumBy(s.allocations, OutgoingWeight(c))
  }

  /** A commodity's available stock as a sort key. */
  function StockKey(s: Storage): Commodity -> real
    requires Total(s.stored)
  {
    c => AvailableWares(s, c) as real
  }

  /** `getAvailableSpace`: capacity minus what is stored and what incoming reservations expect. */
  function AvailableSpace(s: Storage): int
    requires Total(s.stored)
  {
    s.max - Sum(s.stored) - SumBy(s.allocations, IncomingWeight)
  }

  predicate ValidStorage(s: Storage)
  {
    && s.nextId > 0
    && Total(s.stored) && Total(s.quota)
    && DistinctIds(s.allocations)
    && IdsBelow(s.allocations, s.nextId)
    && (forall i :: 0 <= i < |s.allocations| ==> WellFormedAmount(s.allocations[i].amount))
    && (forall c: Commodity :: AvailableWares(s, c) >= 0)
  }

  /** `hasSufficientStorage(storage, c, q)` */
  predicate HasSufficientStorage(s: Storage, c: Commodity, q: int)
    requires Total(s.stored)
  {
    AvailableWares(s, c) >= q
  }

  /** `hasSufficientStorageSpace(storage, q)` */
  predicate HasSufficientStorageSpace(s: Storage, q: int)
    requires Total(s.stored)
  {
    AvailableSpace(s) >= q
  }

  /** Whether a reservation of `x` fits: outgoing within the available wares of
      every commodity, incoming within the available space. */
  predicate Fits(s: Storage, x: StorageAmount)
    requires Total(s.stored) && Total(x.quantities)
  {
    if x.kind == Outgoing then forall c | c in CommoditySet :: x.quantities[c] <= AvailableWares(s, c)
    else Sum(x.quantities) <= AvailableSpace(s)
  }

  /** `newStorageAllocation`: reserve wares (outgoing) or space (incoming). */
  function NewStorageAllocation(s: Storage, x: StorageAmount, issued: int, tradeId: Option<TradeId>)
    : (r: Result<(Storage, StorageAllocation)>)
    requires Total(s.stored)
    ensures r.Err? <==> !WellFormedAmount(x) || !Fits(s, x)
    ensures r.Err? ==> r.error == (if !WellFormedAmount(x) then NegativeQuantity else InsufficientCapacity)
    ensures r.Ok? ==> var (s', a) := r.value;
      && a.amount == x && a.tradeId == tradeId && a.issued == issued
      && s'.stored == s.stored && s'.max == s.max && s'.quota == s.quota
      && s'.allocations == s.allocations + [a]
      && (forall c: Commodity :: AvailableWares(s', c)
                                 == AvailableWares(s, c) - (if x.kind == Outgoing then x.quantities[c] else 0))
      && AvailableSpace(s') == AvailableSpace(s) - (if x.kind == Incoming then Sum(x.quantities) else 0)
      && (ValidStorage(s) ==> ValidStorage(s') && !HasId(s.allocations, a.id))
  {
    if !WellFormedAmount(x) then Err(NegativeQuantity)
    else if !Fits(s, x) then Err(InsufficientCapacity)
    else
      var a := Allocation(s.nextId, x, issued, tradeId);
      StorageAppend(s, a);
      Ok((s.(allocations := s.allocations + [a], nextId := s.nextId + 1), a))
  }

  lemma StorageAppend(s: Storage, a: StorageAllocation)
    requires Total(s.stored) && WellFormedAmount(a.amount) && Fits(s, a.amount) && a.id == s.nextId
    ensures var s' := s.(allocations := s.allocations + [a], nextId := s.nextId + 1);
      var x := a.amount;
      && (forall c: Commodity :: AvailableWares(s', c)
                                 == AvailableWares(s, c) - (if x.kind == Outgoing then x.quantities[c] else 0))
      && AvailableSpace(s') == AvailableSpace(s) - (if x.kind == Incoming then Sum(x.quantities) else 0)
      && (ValidStorage(s) ==> ValidStorage(s') && !HasId(s.allocations, a.id))
  {
    var s' := s.(allocations := s.allocations + [a], nextId := s.nextId + 1);
    StorageAppendWares(s, a);
    SumByAppend(s.allocations, a, IncomingWeight);
    if ValidStorage(s) {
      StorageAppendValid(s, a);
    }
  }

  lemma StorageAppendWares(s: Storage, a: StorageAllocation)
    requires Total(s.stored) && WellFormedAmount(a.amount)
    ensures var s' := s.(allocations := s.allocations + [a], nextId := s.nextId + 1);
      forall c: Commodity :: AvailableWares(s', c)
               == AvailableWares(s, c) - (if a.amount.kind == Outgoing then a.amount.quantities[c] else 0)
  {
    forall c: Commodity
      ensures SumBy(s.allocations + [a], OutgoingWeight(c))
              == SumBy(s.allocations, OutgoingWeight(c)) + OutgoingWeight(c)(a.amount)
    {
      SumByAppend(s.allocations, a, OutgoingWeight(c));
    }
  }

  lemma StorageAppendValid(s: Storage, a: StorageAllocation)
    requires ValidStorage(s) && WellFormedAmount(a.amount) && Fits(s, a.amount) && a.id == s.nextId
    ensures ValidStorage(s.(allocations := s.allocations + [a], nextId := s.nextId + 1))
    ensures !HasId(s.allocations, a.id)
  {
    var t := s.allocations + [a];
    var s' := s.(allocations := t, nextId := s.nextId + 1);
    StorageAppendWares(s, a);
    assert forall i :: 0 <= i < |s.allocations| ==> t[i] == s.allocations[i];
    assert DistinctIds(t);
    assert IdsBelow(t, s'.nextId);
    assert forall i :: 0 <= i < |t| ==> WellFormedAmount(t[i].amount);
    forall c: Commodity ensures AvailableWares(s', c) >= 0 {
      if a.amount.kind == Outgoing {
        CommodityListed(c);
      }
    }
  }

  /** `releaseStorageAllocation`: drop a reservation, giving back its wares or space. */
  function ReleaseStorageAllocation(s: Storage, id: nat): (r: Result<(Storage, StorageAllocation)>)
    requires Total(s.stored)
    ensures r.Err? <==> !HasId(s.allocations, id)
    ensures r.Err? ==> r.error == AllocationNotFound
    ensures r.Ok? ==> var (s', a) := r.value;
      && a.id == id && a in s.allocations
      && s'.stored == s.stored && s'.max == s.max && s'.quota == s.quota && s'.nextId == s.nextId
      && (forall c: Commodity :: AvailableWares(s', c) == AvailableWares(s, c) + OutgoingWeight(c)(a.amount))
      && AvailableSpace(s') == AvailableSpace(s) + IncomingWeight(a.amount)
      && (ValidStorage(s) ==>
            ValidStorage(s') && !HasId(s'.allocations, id)
            && forall x :: x in s'.allocations <==> x in s.allocations && x.id != id)
  {
    match Release(s.allocations, id)
    case Err(e) => Err(e)
    case Ok((rest, a)) =>
      var i :| 0 <= i < |s.allocations| && s.allocations[i].id == id
               && a == s.allocations[i] && rest == RemoveAt(s.allocations, i);
      StorageRemoveAt(s, i);
      StorageRemoveAtValid(s, i);
      Ok((s.(allocations := rest), a))
  }

  lemma StorageRemoveAt(s: Storage, i: nat)
    requires Total(s.stored) && i < |s.allocations|
    ensures var s' := s.(allocations := RemoveAt(s.allocations, i));
      var a := s.allocations[i];
      && (forall c: Commodity :: AvailableWares(s', c) == AvailableWares(s, c) + OutgoingWeight(c)(a.amount))
      && AvailableSpace(s') == AvailableSpace(s) + IncomingWeight(a.amount)
  {
    SumByRemoveAt(s.allocations, i, IncomingWeight);
    forall c: Commodity
      ensures SumBy(RemoveAt(s.allocations, i), OutgoingWeight(c))
              == SumBy(s.allocations, OutgoingWeight(c)) - OutgoingWeight(c)(s.allocations[i].amount)
    {
      SumByRemoveAt(s.allocations, i, OutgoingWeight(c));
    }
  }

  lemma StorageRemoveAtValid(s: Storage, i: nat)
    requires i < |s.allocations|
    ensures var s' := s.(allocations := RemoveAt(s.allocations, i));
      ValidStorage(s) ==>
        ValidStorage(s') && !HasId(s'.allocations, s.allocations[i].id)
        && forall x :: x in s'.allocations <==> x in s.allocations && x.id != s.allocations[i].id
  {
    var rest := RemoveAt(s.allocations, i);
    if ValidStorage(s) {
      RemoveAtKeepsIds(s.allocations, i, s.nextId);
      StorageRemoveAt(s, i);
      forall k | 0 <= k < |rest| ensures WellFormedAmount(rest[k].amount) {
        assert rest[k] in s.allocations;
      }
      assert WellFormedAmount(s.allocations[i].amount);
    }
  }

  /** `transfer(from, c, q, to, settle)`: move `q` of `c` from one storage to
      another. The sender must have `q` available; the receiver must have the
      space unless the transfer settles a reservation (`settle`), whose space
      was set aside when the reservation was made. */
  function Transfer(from: Storage, c: Commodity, q: int, to: Storage, settle: bool)
    : (r: Result<(Storage, Storage)>)
    requires Total(from.stored) && Total(to.stored)
    ensures r.Err? <==> q < 0 || AvailableWares(from, c) < q || (!settle && AvailableSpace(to) < q)
    ensures r.Ok? ==> var (f', t') := r.value;
      && f'.stored == from.stored[c := from.stored[c] - q]
      && t'.stored == to.stored[c := to.stored[c] + q]
      && f'.allocations == from.allocations && t'.allocations == to.allocations
      && f'.max == from.max && t'.max == to.max
      && AvailableWares(f', c) == AvailableWares(from, c) - q
      && AvailableWares(t', c) == AvailableWares(to, c) + q
      && (ValidStorage(from) ==> ValidStorage(f')) && (ValidStorage(to) ==> ValidStorage(t'))
  {
    if q < 0 then Err(NegativeQuantity)
    else if AvailableWares(from, c) < q || (!settle && AvailableSpace(to) < q) then Err(InsufficientCapacity)
    else
      var f' := from.(stored := from.stored[c := from.stored[c] - q]);
      var t' := to.(stored := to.stored[c := to.stored[c] + q]);
      assert forall d: Commodity :: d != c ==> AvailableWares(f', d) == AvailableWares(from, d);
      assert forall d: Commodity :: d != c ==> AvailableWares(t', d) == AvailableWares(to, d);
      Ok((f', t'))
  }

  /** A storage reservation released right after it was made restores the storage exactly. */
  lemma StorageReleaseUndoesNew(s: Storage, x: StorageAmount, issued: int, tradeId: Option<TradeId>)
    requires ValidStorage(s)
    requires NewStorageAllocation(s, x, issued, tradeId).Ok?
    ensures var (s1, a) := NewStorageAllocation(s, x, issued, tradeId).value;
      && ReleaseStorageAllocation(s1, a.id).Ok?
      && ReleaseStorageAllocation(s1, a.id).value.0.allocations == s.allocations
      && ReleaseStorageAllocation(s1, a.id).value.0.stored == s.stored
  {
    var (s1, a) := NewStorageAllocation(s, x, issued, tradeId).value;
    ReleaseLast(s.allocations, a);
  }

  /** Releasing the reservation appended last, whose id was fresh, leaves
      the reservations as they were before it. */
  lemma BudgetReleaseAppended(b: Budget, before: seq<BudgetAllocation>, a: BudgetAllocation)
    requires b.allocations == before + [a] && !HasId(before, a.id)
    ensures ReleaseBudgetAllocation(b, a.id).Ok?
    ensures ReleaseBudgetAllocation(b, a.id).value.0 == b.(allocations := before)
  {
    ReleaseLast(before, a);
  }

  lemma StorageReleaseAppended(s: Storage, before: seq<StorageAllocation>, a: StorageAllocation)
    requires Total(s.stored) && s.allocations == before + [a] && !HasId(before, a.id)
    ensures ReleaseStorageAllocation(s, a.id).Ok?
    ensures ReleaseStorageAllocation(s, a.id).value.0 == s.(allocations := before)
  {
    ReleaseLast(before, a);
  }

  lemma StorageDoubleReleaseFails(s: Storage, id: nat)
    requires ValidStorage(s) && ReleaseStorageAllocation(s, id).Ok?
    ensures ReleaseStorageAllocation(ReleaseStorageAllocation(s, id).value.0, id) == Err(AllocationNotFound)
  {
  }

  /** Dropping every reservation of some trades keeps a storage ledger valid and
      only gives wares back. */
  lemma WithoutTradesKeepsStorage(s: Storage, trades: set<TradeId>)
    requires ValidStorage(s)
    ensures ValidStorage(s.(allocations := WithoutTrades(s.allocations, trades)))
  {
    var r := WithoutTrades(s.allocations, trades);
    var s' := s.(allocations := r);
    WithoutTradesIdsSub(s.allocations, trades, s.nextId);
    forall c: Commodity ensures AvailableWares(s', c) >= AvailableWares(s, c) {
      WithoutTradesSumBy(s.allocations, trades, OutgoingWeight(c));
    }
  }

  lemma WithoutTradesKeepsBudget(b: Budget, trades: set<TradeId>)
    requires ValidBudget(b)
    ensures ValidBudget(b.(allocations := WithoutTrades(b.allocations, trades)))
  {
    WithoutTradesIdsSub(b.allocations, trades, b.nextId);
    WithoutTradesSumBy(b.allocations, trades, MoneyWeight);
  }

  lemma {:induction false} WithoutTradesIdsSub<A(!new)>(s: seq<Allocation<A>>, trades: set<TradeId>, nextId: nat)
    requires DistinctIds(s) && IdsBelow(s, nextId)
    ensures DistinctIds(WithoutTrades(s, trades)) && IdsBelow(WithoutTrades(s, trades), nextId)
  {
    if s != [] {
      WithoutTradesIdsSub(s[1..], trades, nextId);
      var r := WithoutTrades(s[1..], trades);
      forall k | 0 <= k < |r| ensures r[k].id != s[0].id {
        assert r[k] in s[1..];
      }
    }
  }

  /** Dropping reservations with a non-negative weight never raises their sum. */
  lemma {:induction false} WithoutTradesSumBy<A(!new)>(s: seq<Allocation<A>>, trades: set<TradeId>, w: A -> int)
    requires forall i :: 0 <= i < |s| ==> w(s[i].amount) >= 0
    ensures SumBy(WithoutTrades(s, trades), w) <= SumBy(s, w)
  {
    if s != [] {
      WithoutTradesSumBy(s[1..], trades, w);
    }
  }
}
