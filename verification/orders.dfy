/** The orders component of a ship and the constructors of its order kinds. */
module Orders {
  import opened Common
  import opened TradeTypes

  /** A point in a sector (the `Matrix` of a move order). */
  datatype Position = Position(x: real, y: real)

  datatype Order =
    | MoveOrder(position: Position)
    | TradeOrder(offer: TransactionInput, target: EntityId)
    | MineOrder(target: EntityId, targetRock: EntityId)
    | HoldPositionOrder

  /** `tradeOrder`: a trade order for a positive quantity; zero or less is refused. */
  function TradeOrderOf(offer: TransactionInput, target: EntityId): (r: Result<Order>)
    ensures r.Err? <==> offer.quantity <= 0
    ensures r.Err? ==> r.error == NegativeQuantity
    ensures r.Ok? ==> r.value.TradeOrder? && r.value.offer == offer && r.value.target == target
  {
    if offer.quantity <= 0 then Err(NegativeQuantity) else Ok(TradeOrder(offer, target))
  }

  /** `mineOrder`: always succeeds, keeping both targets. */
  function MineOrderOf(target: EntityId, targetRock: EntityId): (r: Order)
    ensures r.MineOrder? && r.target == target && r.targetRock == targetRock
  {
    MineOrder(target, targetRock)
  }

  /** The `Orders` component: a queue of orders, empty when created. */
  class Orders {
    var value: seq<Order>

    constructor ()
      ensures value == []
    {
      value := [];
    }
  }
}
