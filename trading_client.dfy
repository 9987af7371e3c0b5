/** The Python trading client's cache of the user's open orders, kept up to
    date from the order feed. */
module TradingClient {

  datatype Order = Order(id: int, contract: string, price: int, quantity: int,
                         quantityLeft: int, side: string, isCancelled: bool)

  /** An order that can still trade. */
  predicate IsOpen(o: Order)
  {
    o.quantityLeft > 0 && !o.isCancelled
  }

  class TradingBot {
    var orders: map<int, Order>

    /** The cache holds open orders, each under its own id. */
    ghost predicate Valid()
      reads this
    {
      forall id :: id in orders ==> orders[id].id == id && IsOpen(orders[id])
    }

    constructor ()
      ensures Valid() && orders == map[]
    {
      orders := map[];
    }

    /** `onOrder` as written: a cached order that is cancelled or has
        nothing left is dropped; otherwise an order with something left is
        stored under its id, whether or not it is cancelled. */
    method OnOrder(order: Order)
      modifies this
      ensures order.id in old(orders) && (order.isCancelled || order.quantityLeft == 0) ==>
                orders == old(orders) - {order.id}
      ensures !(order.id in old(orders) && (order.isCancelled || order.quantityLeft == 0)) ==>
                orders == if order.quantityLeft > 0 then old(orders)[order.id := order] else old(orders)
      ensures forall id :: id != order.id ==> (id in orders <==> id in old(orders))
      ensures forall id :: id != order.id && id in orders ==> orders[id] == old(orders)[id]
    {
      var id := order.id;
      if id in orders && (order.isCancelled || order.quantityLeft == 0) {
        orders := orders - {id};
      } else if order.quantityLeft > 0 {
        orders := orders[id := order];
      }
    }

    /** `onOrder` keeping the cache of open orders: as written, except that
        a cancelled order is never stored. */
    method OnOrderKeepingOpen(order: Order)
      requires Valid()
      modifies this
      ensures Valid()
      ensures IsOpen(order) ==> orders == old(orders)[order.id := order]
      ensures order.isCancelled || order.quantityLeft == 0 ==> orders == old(orders) - {order.id}
      ensures !order.isCancelled && order.quantityLeft < 0 ==> orders == old(orders)
    {
      var id := order.id;
      if id in orders && (order.isCancelled || order.quantityLeft == 0) {
        orders := orders - {id};
      } else if order.quantityLeft > 0 && !order.isCancelled {
        orders := orders[id := order];
      }
    }
  }

  /** As written, a cancelled order reported before the cache knew it is
      cached as open: the bot then holds an order it cannot trade. */
  method CancelledOrderCached() returns (cached: bool, stillValid: bool)
    ensures cached && !stillValid
  {
    var bot := new TradingBot();
    var cancelled := Order(7, "BTC/MXN", 100, 5, 5, "BUY", true);
    bot.OnOrder(cancelled);
    cached := 7 in bot.orders && bot.orders[7].isCancelled;
    stillValid := forall id :: id in bot.orders ==> IsOpen(bot.orders[id]);
  }
}
