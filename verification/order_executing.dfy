/** The order execution engine of the core revision: each orderable entity
    holds a queue of orders, each order a queue of actions; every tick only
    the head action of the head order runs. When an entity is removed, three
    hooks release the reservations of its trades, drop the orders aimed at it
    and detach its subordinates and children. */
module OrderExecuting {
  import opened Common
  import opened Ledger

  datatype ActionKind =
    | AttackAction | TradeAction | MineAction | MoveAction | TeleportAction
    | DockAction | DeployFacilityAction | DeployBuilderAction
    | OtherAction(name: string)

  datatype Action = Action(kind: ActionKind, targetId: Option<EntityId>)

  /** Order types; only `attack`, `patrol`, `follow` and `hold` have an entry
      in the `orderFns` table. */
  datatype OrderKind = Attack | Patrol | Follow | Hold | OtherOrder(name: string)

  datatype CoreOrder = CoreOrder(kind: OrderKind, actions: seq<Action>, targetId: Option<EntityId>)

  datatype AutoOrder = HoldAuto | OtherAuto(name: string)

  /** The components the engine reads and writes; a missing component is
      `None`. `damageTarget` is `damage.targetId`. */
  datatype CoreEntity = CoreEntity(
    orders: Option<seq<CoreOrder>>,
    damageTarget: Option<EntityId>,
    commander: Option<EntityId>,
    autoOrder: Option<AutoOrder>,
    parent: Option<EntityId>,
    budget: Option<Budget>,
    storage: Option<Storage>)

  /** Every ledger is valid, and an entity with a commander (a
      commendable) also has an order queue and an automatic order. */
  predicate CoreWellFormed(e: CoreEntity)
  {
    && (e.budget.Some? ==> ValidBudget(e.budget.value))
    && (e.storage.Some? ==> ValidStorage(e.storage.value))
    && (e.commander.Some? ==> e.orders.Some? && e.autoOrder.Some?)
  }

  predicate CoreValid(es: map<EntityId, CoreEntity>)
  {
    forall k :: k in es ==> CoreWellFormed(es[k])
  }

  // ---------------------------------------------------------------------------
  // The `orderFns` and `actionFns` tables and `exec`.

  /** The action functions of `actionFns`, plus `holdPosition`, the fallback. */
  datatype ActionFn =
    | AttackFn | TradeFn | MineFn | MoveFn | TeleportFn | DockFn | DeployFacilityFn | DeployBuilderFn
    | HoldPositionFn

  /** `actionFns[type] ?? holdPosition`. */
  function ActionFnOf(k: ActionKind): (f: ActionFn)
    ensures f == HoldPositionFn <==> k.OtherAction?
  {
    match k
    case AttackAction => AttackFn
    case TradeAction => TradeFn
    case MineAction => MineFn
    case MoveAction => MoveFn
    case TeleportAction => TeleportFn
    case DockAction => DockFn
    case DeployFacilityAction => DeployFacilityFn
    case DeployBuilderAction => DeployBuilderFn
    case OtherAction(_) => HoldPositionFn
  }

  /** Whether the order type has an `orderFns` entry (and so an `onCompleted`). */
  predicate HasHandlers(k: OrderKind)
  {
    !k.OtherOrder?
  }

  /** The `isCompleted` of the order's `orderFns` entry, or `true` without
      one; `keys` are the entities that still exist. */
  predicate IsCompleted(k: OrderKind, e: CoreEntity, keys: set<EntityId>)
  {
    match k
    case Attack => e.damageTarget.Some? && e.damageTarget.value != 0 && e.damageTarget.value !in keys
    case Follow => e.damageTarget.Some? && e.damageTarget.value != 0 && e.damageTarget.value !in keys
    case Patrol => false
    case Hold => false
    case OtherOrder(_) => true
  }

  /** `exec` reads the head order's first action unguarded: an entity with
      a non-empty queue must have a head order with an action. */
  predicate Runnable(e: CoreEntity)
  {
    e.orders.Some? && |e.orders.value| > 0 ==> |e.orders.value[0].actions| > 0
  }

  /** The action function the head of `e` runs, `HoldPositionFn` when there is none. */
  function HeadFn(e: CoreEntity): ActionFn
    requires Runnable(e)
  {
    if e.orders.Some? && |e.orders.value| > 0 then ActionFnOf(e.orders.value[0].actions[0].kind) else HoldPositionFn
  }

  /** One entity's turn in `exec`: `done` is the truthiness of what the head
      action's function returned. */
  function Advance(e: CoreEntity, keys: set<EntityId>, done: bool): CoreEntity
    requires Runnable(e)
  {
    if e.orders.None? || |e.orders.value| == 0 || !done then e
    else
      var os := e.orders.value;
      var head := os[0].(actions := os[0].actions[1..]);
      if |head.actions| == 0 && IsCompleted(os[0].kind, e, keys) then e.(orders := Some(os[1..]))
      else e.(orders := Some([head] + os[1..]))
  }

  /** `exec` on the entities `es`; `done(k, f)` is what the action function
      `f` returned for entity `k`. */
  function ExecIn(es: map<EntityId, CoreEntity>, done: (EntityId, ActionFn) -> bool): (out: map<EntityId, CoreEntity>)
    requires forall k :: k in es ==> Runnable(es[k])
  {
    map k | k in es :: Advance(es[k], es.Keys, done(k, HeadFn(es[k])))
  }

  /** `exec` touches only the head of each queue: an entity without orders,
      or whose head action did not finish, is unchanged; otherwise the head
      action is dropped, and the head order with it exactly when that was its
      last action and the order is completed — `patrol` and `hold` never,
      `attack` and `follow` when their damage target is set and gone, an
      order without an `orderFns` entry always. Every later order and every
      other component is kept. */
  lemma ExecEffect(es: map<EntityId, CoreEntity>, done: (EntityId, ActionFn) -> bool, k: EntityId)
    requires forall j :: j in es ==> Runnable(es[j])
    requires k in es
    ensures var e := es[k];
      var out := ExecIn(es, done);
      && out.Keys == es.Keys
      && out[k].(orders := e.orders) == e
      && (e.orders.None? || |e.orders.value| == 0 ==> out[k] == e)
      && (e.orders.Some? && |e.orders.value| > 0 ==>
            var os := e.orders.value;
            var finished := done(k, ActionFnOf(os[0].actions[0].kind));
            var completed := match os[0].kind
              case Patrol => false
              case Hold => false
              case Attack => e.damageTarget.Some? && e.damageTarget.value != 0 && e.damageTarget.value !in es
              case Follow => e.damageTarget.Some? && e.damageTarget.value != 0 && e.damageTarget.value !in es
              case OtherOrder(_) => true;
            && (!finished ==> out[k] == e)
            && (finished && |os[0].actions| == 1 && completed ==> out[k].orders == Some(os[1..]))
            && (finished && !(|os[0].actions| == 1 && completed) ==>
                  && out[k].orders.Some? && |out[k].orders.value| == |os|
                  && out[k].orders.value[0] == os[0].(actions := os[0].actions[1..])
                  && out[k].orders.value[1..] == os[1..]))
  {
    var e := es[k];
    if e.orders.Some? && |e.orders.value| > 0 {
      var os := e.orders.value;
      var head := os[0].(actions := os[0].actions[1..]);
      assert ([head] + os[1..])[1..] == os[1..];
    }
  }

  // ---------------------------------------------------------------------------
  // `cleanupAllocations`

  /** The trades the entity `e` holds a reservation of. */
  function TradesOf(e: CoreEntity): (ts: set<TradeId>)
    ensures e.budget.Some? ==> forall a :: a in e.budget.value.allocations && a.tradeId.Some? ==> a.tradeId.value in ts
    ensures e.storage.Some? ==> forall a :: a in e.storage.value.allocations && a.tradeId.Some? ==> a.tradeId.value in ts
  {
    (if e.budget.Some? then set a | a in e.budget.value.allocations && a.tradeId.Some? :: a.tradeId.value else {})
    + (if e.storage.Some? then set a | a in e.storage.value.allocations && a.tradeId.Some? :: a.tradeId.value else {})
  }

  /** `e` without any reservation of the trades `ts`. */
  function Released(e: CoreEntity, ts: set<TradeId>): CoreEntity
  {
    e.(budget := if e.budget.Some? then Some(e.budget.value.(allocations := WithoutTrades(e.budget.value.allocations, ts)))
                  else None,
       storage := if e.storage.Some? then Some(e.storage.value.(allocations := WithoutTrades(e.storage.value.allocations, ts)))
                  else None)
  }

  /** `cleanupAllocations(removed)`: every reservation, on any entity, of a
      trade the removed entity holds a reservation of. */
  function CleanupAllocationsIn(es: map<EntityId, CoreEntity>, removed: EntityId): map<EntityId, CoreEntity>
  {
    var ts := if removed in es then TradesOf(es[removed]) else {};
    map k | k in es :: Released(es[k], ts)
  }

  /** After `cleanupAllocations` no entity holds a reservation of a trade
      the removed entity took part in, every other reservation and all
      money and stock are kept, and every ledger stays valid. */
  lemma CleanupAllocationsEffect(es: map<EntityId, CoreEntity>, removed: EntityId, k: EntityId)
    requires CoreValid(es) && k in es
    ensures var out := CleanupAllocationsIn(es, removed);
      var ts := if removed in es then TradesOf(es[removed]) else {};
      var e := es[k];
      && CoreValid(out) && out.Keys == es.Keys
      && out[k].(budget := e.budget, storage := e.storage) == e
      && out[k].budget.Some? == e.budget.Some? && out[k].storage.Some? == e.storage.Some?
      && (e.budget.Some? ==>
            && out[k].budget.value.money == e.budget.value.money
            && forall a :: a in out[k].budget.value.allocations <==>
                 a in e.budget.value.allocations && !(a.tradeId.Some? && a.tradeId.value in ts))
      && (e.storage.Some? ==>
            && out[k].storage.value.stored == e.storage.value.stored
            && forall a :: a in out[k].storage.value.allocations <==>
                 a in e.storage.value.allocations && !(a.tradeId.Some? && a.tradeId.value in ts))
  {
    var ts := if removed in es then TradesOf(es[removed]) else {};
    var out := CleanupAllocationsIn(es, removed);
    forall j | j in es ensures CoreWellFormed(out[j]) {
      if es[j].budget.Some? {
        WithoutTradesKeepsBudget(es[j].budget.value, ts);
      }
      if es[j].storage.Some? {
        WithoutTradesKeepsStorage(es[j].storage.value, ts);
      }
    }
  }

  /** In particular the removed entity's own reservations of a trade are
      all gone, and so is every reservation elsewhere of the same trade. */
  lemma CleanupAllocationsLeavesNoTrade(es: map<EntityId, CoreEntity>, removed: EntityId, k: EntityId, t: TradeId)
    requires CoreValid(es) && removed in es && k in es && t in TradesOf(es[removed])
    ensures var out := CleanupAllocationsIn(es, removed);
      && (out[k].budget.Some? ==> forall a :: a in out[k].budget.value.allocations ==> a.tradeId != Some(t))
      && (out[k].storage.Some? ==> forall a :: a in out[k].storage.value.allocations ==> a.tradeId != Some(t))
  {
    CleanupAllocationsEffect(es, removed, k);
  }

  // ---------------------------------------------------------------------------
  // `cleanupOrders`

  /** A `dock`, `deployBuilder` or `trade` action aimed at `removed`. */
  predicate AimedAction(a: Action, removed: EntityId)
  {
    (a.kind == DockAction || a.kind == DeployBuilderAction || a.kind == TradeAction) && a.targetId == Some(removed)
  }

  /** An order `cleanupOrders` drops: one with an action aimed at `removed`,
      or a `follow` or `attack` order targeting it. */
  predicate Aimed(o: CoreOrder, removed: EntityId)
  {
    || (exists i :: 0 <= i < |o.actions| && AimedAction(o.actions[i], removed))
    || ((o.kind == Follow || o.kind == Attack) && o.targetId == Some(removed))
  }

  /** The orders of `os` not aimed at `removed`, in their order. */
  function Unaimed(os: seq<CoreOrder>, removed: EntityId): (r: seq<CoreOrder>)
    ensures forall o :: o in r <==> o in os && !Aimed(o, removed)
    ensures |r| <= |os|
  {
    if os == [] then []
    else
      assert forall o :: o in os <==> o == os[0] || o in os[1..];
      if Aimed(os[0], removed) then Unaimed(os[1..], removed) else [os[0]] + Unaimed(os[1..], removed)
  }

  /** The queue as the source's `forEach` with `splice` leaves it: the walk
      visits the indices `0 .. n - 1` fixed when it starts, each of them
      only while it is still inside the shrinking queue, and a removal
      shifts the next order into the index just visited, so that order is
      never examined. */
  function SpliceWalk(os: seq<CoreOrder>, i: nat, n: nat, removed: EntityId): seq<CoreOrder>
    decreases n - i
  {
    if i >= n then os
    else if i < |os| && Aimed(os[i], removed) then SpliceWalk(os[..i] + os[i + 1..], i + 1, n, removed)
    else SpliceWalk(os, i + 1, n, removed)
  }

  function CleanupOrdersAsWritten(os: seq<CoreOrder>, removed: EntityId): seq<CoreOrder>
  {
    SpliceWalk(os, 0, |os|, removed)
  }

  /** Two consecutive orders aimed at the removed entity: the walk drops the
      first and skips the second, which stays queued, while the intended
      cleanup drops both. */
  lemma CleanupOrdersAsWrittenKeepsAimed()
    ensures var o := CoreOrder(Follow, [], Some(7));
      && Aimed(o, 7)
      && CleanupOrdersAsWritten([o, o], 7) == [o]
      && Unaimed([o, o], 7) == []
  {
    var o := CoreOrder(Follow, [], Some(7));
    assert [o, o][..0] + [o, o][1..] == [o];
    assert SpliceWalk([o], 1, 2, 7) == SpliceWalk([o], 2, 2, 7);
  }

  /** The intended cleanup leaves no order aimed at the removed entity and
      keeps every other order, in its order. */
  lemma {:induction false} UnaimedIsSubsequence(os: seq<CoreOrder>, removed: EntityId)
    ensures forall o :: o in Unaimed(os, removed) ==> !Aimed(o, removed)
    ensures forall i :: 0 <= i < |os| && !Aimed(os[i], removed) ==> os[i] in Unaimed(os, removed)
    ensures (forall o :: o in os ==> !Aimed(o, removed)) ==> Unaimed(os, removed) == os
  {
    if os != [] {
      UnaimedIsSubsequence(os[1..], removed);
      forall i | 0 <= i < |os| && !Aimed(os[i], removed) ensures os[i] in Unaimed(os, removed) {
        if i > 0 {
          assert os[i] == os[1..][i - 1];
        }
      }
      if forall o :: o in os ==> !Aimed(o, removed) {
        assert forall o :: o in os[1..] ==> o in os;
      }
    }
  }

  /** Whether removing `removed` fires the `onCompleted` of `e`'s head order:
      only the order at index 0 is ever handed to it, and only when its type
      has an `orderFns` entry. */
  predicate HeadCompletes(e: CoreEntity, removed: EntityId)
  {
    e.orders.Some? && |e.orders.value| > 0 && Aimed(e.orders.value[0], removed) && HasHandlers(e.orders.value[0].kind)
  }

  /** `cleanupOrders(removed)`, corrected to drop every aimed order. */
  function CleanupOrdersIn(es: map<EntityId, CoreEntity>, removed: EntityId): map<EntityId, CoreEntity>
  {
    map k | k in es :: if es[k].orders.Some? then es[k].(orders := Some(Unaimed(es[k].orders.value, removed))) else es[k]
  }

  // ---------------------------------------------------------------------------
  // `cleanupChildren`

  /** A subordinate of `removed` loses its commander, its orders, and falls
      back to holding position. */
  function Detached(e: CoreEntity, removed: EntityId): CoreEntity
  {
    if e.commander == Some(removed) then e.(commander := None, orders := Some([]), autoOrder := Some(HoldAuto)) else e
  }

  /** `cleanupChildren(removed)`: detach every subordinate, then unregister
      every child (the removal hooks of a child are not run). Afterwards no
      entity is commanded by or a child of the removed entity; former
      subordinates that remain have an empty queue and hold position; every
      other entity that remains is unchanged, and exactly the children are
      gone. */
  function CleanupChildrenIn(es: map<EntityId, CoreEntity>, removed: EntityId): (out: map<EntityId, CoreEntity>)
    ensures CoreValid(es) ==> CoreValid(out)
    ensures forall k :: k in out <==> k in es && es[k].parent != Some(removed)
    ensures forall k :: k in out ==> out[k].commander != Some(removed) && out[k].parent != Some(removed)
    ensures forall k :: k in out && es[k].commander == Some(removed) ==>
              out[k].orders == Some([]) && out[k].autoOrder == Some(HoldAuto) && out[k].commander.None?
    ensures forall k :: k in out && es[k].commander != Some(removed) ==> out[k] == es[k]
  {
    map k | k in es && es[k].parent != Some(removed) :: Detached(es[k], removed)
  }

  // ---------------------------------------------------------------------------
  // The removal hooks, and the engine as a class.

  datatype Hook = AllocationsHook | OrdersHook | ChildrenHook

  function RunHook(h: Hook, es: map<EntityId, CoreEntity>, removed: EntityId): map<EntityId, CoreEntity>
  {
    match h
    case AllocationsHook => CleanupAllocationsIn(es, removed)
    case OrdersHook => CleanupOrdersIn(es, removed)
    case ChildrenHook => CleanupChildrenIn(es, removed)
  }

  /** The hooks `hs` run one after the other. */
  function RunHooks(hs: seq<Hook>, es: map<EntityId, CoreEntity>, removed: EntityId): map<EntityId, CoreEntity>
    decreases |hs|
  {
    if hs == [] then es else RunHooks(hs[1..], RunHook(hs[0], es, removed), removed)
  }

  /** The entities whose `onCompleted` handler the hooks `hs` fire: those
      whose head order the orders hook finds aimed at the removed entity. */
  function FiredBy(hs: seq<Hook>, es: map<EntityId, CoreEntity>, removed: EntityId): set<EntityId>
    decreases |hs|
  {
    if hs == [] then {}
    else
      (if hs[0] == OrdersHook then set k | k in es && HeadCompletes(es[k], removed) else {})
      + FiredBy(hs[1..], RunHook(hs[0], es, removed), removed)
  }

  const Registered: seq<Hook> := [AllocationsHook, OrdersHook, ChildrenHook]

  /** With the registered hooks, the handlers fired are those of the heads
      aimed at the removed entity once its trades' reservations are gone. */
  lemma RegisteredFires(es: map<EntityId, CoreEntity>, removed: EntityId)
    ensures var es1 := CleanupAllocationsIn(es, removed);
      FiredBy(Registered, es, removed) == set k | k in es1 && HeadCompletes(es1[k], removed)
  {
    assert Registered[1..] == [OrdersHook, ChildrenHook];
    assert Registered[1..][1..] == [ChildrenHook];
    assert Registered[1..][1..][1..] == [];
  }

  /** With the hooks registered by the constructor, removing an entity leaves
      no reservation of its trades, no order aimed at it, no subordinate and
      no child of it, and every ledger valid. */
  lemma RemovalLeavesNoReference(es: map<EntityId, CoreEntity>, removed: EntityId)
    requires CoreValid(es)
    ensures var out := RunHooks(Registered, es, removed);
      var ts := if removed in es then TradesOf(es[removed]) else {};
      && CoreValid(out) && out.Keys <= es.Keys
      && (forall k :: k in out ==> out[k].commander != Some(removed) && out[k].parent != Some(removed))
      && (forall k :: k in out && out[k].orders.Some? ==> forall o :: o in out[k].orders.value ==> !Aimed(o, removed))
      && (forall k :: k in out && out[k].budget.Some? ==>
            forall a :: a in out[k].budget.value.allocations ==> !(a.tradeId.Some? && a.tradeId.value in ts))
      && (forall k :: k in out && out[k].storage.Some? ==>
            forall a :: a in out[k].storage.value.allocations ==> !(a.tradeId.Some? && a.tradeId.value in ts))
  {
    var ts := if removed in es then TradesOf(es[removed]) else {};
    var es1 := CleanupAllocationsIn(es, removed);
    forall k | k in es ensures CoreWellFormed(es1[k]) {
      CleanupAllocationsEffect(es, removed, k);
    }
    forall k | k in es1 && es1[k].budget.Some?
      ensures forall a :: a in es1[k].budget.value.allocations ==> !(a.tradeId.Some? && a.tradeId.value in ts)
    {
      CleanupAllocationsEffect(es, removed, k);
    }
    forall k | k in es1 && es1[k].storage.Some?
      ensures forall a :: a in es1[k].storage.value.allocations ==> !(a.tradeId.Some? && a.tradeId.value in ts)
    {
      CleanupAllocationsEffect(es, removed, k);
    }
    var es2 := CleanupOrdersIn(es1, removed);
    assert CoreValid(es2);
    var es3 := CleanupChildrenIn(es2, removed);
    assert RunHooks(Registered, es, removed) == es3 by {
      assert Registered[1..] == [OrdersHook, ChildrenHook];
      assert Registered[1..][1..] == [ChildrenHook];
    }
  }

  /** The engine: the entities it sees and the removal hooks it registered. */
  class OrderExecutingSystem {
    var entities: map<EntityId, CoreEntity>
    var hooks: seq<Hook>

    /** The constructor taps the removal hook three times: allocations, then
        orders, then children. */
    constructor (es: map<EntityId, CoreEntity>)
      ensures entities == es && hooks == Registered
    {
      entities := es;
      hooks := [AllocationsHook, OrdersHook, ChildrenHook];
    }

    /** `exec`: every orderable entity runs the head action of its head
        order; `done(k, f)` is what the action function `f` returned for `k`. */
    method Exec(done: (EntityId, ActionFn) -> bool)
      requires forall k :: k in entities ==> Runnable(entities[k])
      modifies this`entities
      ensures entities == ExecIn(old(entities), done)
    {
      ghost var es0 := entities;
      var todo := entities.Keys;
      while todo != {}
        invariant todo <= es0.Keys && entities.Keys == es0.Keys
        invariant forall k :: k in todo ==> entities[k] == es0[k]
        invariant forall k :: k in es0 && k !in todo ==> entities[k] == Advance(es0[k], es0.Keys, done(k, HeadFn(es0[k])))
        decreases todo
      {
        var k :| k in todo;
        var e := entities[k];
        if e.orders.Some? && |e.orders.value| > 0 {
          var order := e.orders.value[0];
          var finished := done(k, ActionFnOf(order.actions[0].kind));
          if finished {
            var head := order.(actions := order.actions[1..]);
            if |head.actions| == 0 && IsCompleted(order.kind, e, entities.Keys) {
              entities := entities[k := e.(orders := Some(e.orders.value[1..]))];
            } else {
              entities := entities[k := e.(orders := Some([head] + e.orders.value[1..]))];
            }
          }
        }
        todo := todo - {k};
      }
    }

    /** `cleanupAllocations(removed)`: for every reservation of the removed
        entity that belongs to a trade, release that trade's reservations on
        every entity. */
    method CleanupAllocations(removed: EntityId)
      modifies this`entities
      ensures entities == CleanupAllocationsIn(old(entities), removed)
    {
      var ts := if removed in entities then TradesOf(entities[removed]) else {};
      ghost var es0 := entities;
      var todo := entities.Keys;
      while todo != {}
        invariant todo <= es0.Keys && entities.Keys == es0.Keys
        invariant forall k :: k in todo ==> entities[k] == es0[k]
        invariant forall k :: k in es0 && k !in todo ==> entities[k] == Released(es0[k], ts)
        decreases todo
      {
        var k :| k in todo;
        entities := entities[k := Released(entities[k], ts)];
        todo := todo - {k};
      }
    }

    /** `cleanupOrders(removed)`, dropping every order aimed at the removed
        entity; `fired` are the entities whose head order's `onCompleted` ran. */
    method CleanupOrders(removed: EntityId) returns (fired: set<EntityId>)
      modifies this`entities
      ensures entities == CleanupOrdersIn(old(entities), removed)
      ensures fired == set k | k in old(entities) && HeadCompletes(old(entities)[k], removed)
    {
      ghost var es0 := entities;
      var todo := entities.Keys;
      fired := {};
      while todo != {}
        invariant todo <= es0.Keys && entities.Keys == es0.Keys
        invariant forall k :: k in todo ==> entities[k] == es0[k]
        invariant forall k :: k in es0 && k !in todo ==> entities[k] == CleanupOrdersIn(es0, removed)[k]
        invariant fired == set k | k in es0 && k !in todo && HeadCompletes(es0[k], removed)
        decreases todo
      {
        var k :| k in todo;
        var e := entities[k];
        if e.orders.Some? {
          if HeadCompletes(e, removed) {
            fired := fired + {k};
          }
          entities := entities[k := e.(orders := Some(Unaimed(e.orders.value, removed)))];
        }
        todo := todo - {k};
      }
    }

    /** `cleanupChildren(removed)`: detach the subordinates, then unregister
        the children. */
    method CleanupChildren(removed: EntityId)
      modifies this`entities
      ensures entities == CleanupChildrenIn(old(entities), removed)
    {
      ghost var es0 := entities;
      var todo := entities.Keys;
      while todo != {}
        invariant todo <= es0.Keys && entities.Keys == es0.Keys
        invariant forall k :: k in todo ==> entities[k] == es0[k]
        invariant forall k :: k in es0 && k !in todo ==> entities[k] == Detached(es0[k], removed)
        decreases todo
      {
        var k :| k in todo;
        entities := entities[k := Detached(entities[k], removed)];
        todo := todo - {k};
      }
      ghost var es1 := entities;
      var children := set k | k in entities && entities[k].parent == Some(removed);
      while children != {}
        invariant children <= es1.Keys
        invariant forall k :: k in entities <==> k in es1 && (k in children || es1[k].parent != Some(removed))
        invariant forall k :: k in entities ==> entities[k] == es1[k]
        invariant forall k :: k in children ==> es1[k].parent == Some(removed)
        decreases children
      {
        var k :| k in children;
        entities := entities - {k};
        children := children - {k};
      }
    }

    /** The removal hooks, run in the order they were registered. */
    method RunRemovalHooks(removed: EntityId) returns (fired: set<EntityId>)
      modifies this`entities
      ensures entities == RunHooks(hooks, old(entities), removed)
      ensures fired == FiredBy(hooks, old(entities), removed)
      ensures hooks == Registered ==>
                var es1 := CleanupAllocationsIn(old(entities), removed);
                fired == set k | k in es1 && HeadCompletes(es1[k], removed)
    {
      RegisteredFires(entities, removed);
      fired := {};
      var i := 0;
      while i < |hooks|
        invariant 0 <= i <= |hooks|
        invariant RunHooks(hooks[i..], entities, removed) == RunHooks(hooks, old(entities), removed)
        invariant fired + FiredBy(hooks[i..], entities, removed) == FiredBy(hooks, old(entities), removed)
      {
        assert hooks[i..][0] == hooks[i] && hooks[i..][1..] == hooks[i + 1..];
        match hooks[i] {
          case AllocationsHook => CleanupAllocations(removed);
          case OrdersHook =>
            var f := CleanupOrders(removed);
            fired := fired + f;
          case ChildrenHook => CleanupChildren(removed);
        }
        i := i + 1;
      }
    }
  }
}
