/**
 * The handlers as they run: a store object holding the cart map and the
 * order map, one method per handler that checks before it writes and then
 * updates one key, and the two loops of the payment handler.
 */
module Handlers {
  import opened OrderModel
  import Lifecycle
  import Properties

  /** The payment handler's first loop: add up quantity times price over the lines. */
  method ComputeTotal(items: seq<Item>) returns (total: real)
    ensures total == CartTotal(items)
  {
    total := 0.0;
    var i := 0;
    while i < |items|
      invariant 0 <= i <= |items|
      invariant total == CartTotal(items[..i])
    {
      CartTotalAppend(items[..i], [items[i]]);
      assert items[..i + 1] == items[..i] + [items[i]];
      total := total + LineTotal(items[i]);
      i := i + 1;
    }
    assert items[..i] == items;
  }

  /** The payment handler's second loop: copy each cart line into a slice of order lines. */
  method CopyItems(items: seq<Item>) returns (orderItems: seq<OrderItem>)
    ensures Mirrors(orderItems, items)
    ensures orderItems == ConvertItems(items)
  {
    var slice := new OrderItem[|items|];
    var i := 0;
    while i < |items|
      invariant 0 <= i <= |items|
      invariant forall j :: 0 <= j < i ==> slice[j] == ConvertItems(items)[j]
    {
      slice[i] := OrderItem(items[i].itemID, items[i].name, items[i].quantity, items[i].price);
      i := i + 1;
    }
    orderItems := slice[..];
  }

  class Store {
    /** The current cart of each customer, keyed by customer id. */
    var carts: map<string, Cart>
    /** Every order, keyed by the order id the payment request named. */
    var orders: map<string, Order>

    /** The two maps as a value. */
    function Snapshot(): Lifecycle.State
      reads this
    {
      Lifecycle.State(carts, orders)
    }

    ghost predicate Valid()
      reads this
    {
      Lifecycle.Inv(Snapshot())
    }

    constructor ()
      ensures Snapshot() == Lifecycle.Empty
      ensures Valid()
    {
      carts := map[];
      orders := map[];
    }

    method CreateCart(customerID: string, items: seq<Item>, cartID: string) returns (r: Result<Cart>)
      modifies this
      ensures Lifecycle.Step(Snapshot(), r) == Lifecycle.CreateCart(old(Snapshot()), customerID, items, cartID)
      ensures old(Valid()) ==> Valid()
    {
      if customerID == "" || |items| == 0 {
        return Err(InvalidRequest);
      }
      var cart := Cart(cartID, customerID, items);
      carts := carts[customerID := cart];
      r := Ok(cart);
      if old(Valid()) {
        Properties.ApplyPreservesInv(old(Snapshot()), Properties.CreateCartRequest(customerID, items, cartID));
      }
    }

    method ProcessPayment(orderID: string, amount: real, billing: BillingAddress) returns (r: Result<Order>)
      modifies this
      ensures Lifecycle.Step(Snapshot(), r) == Lifecycle.ProcessPayment(old(Snapshot()), orderID, amount, billing)
      ensures old(Valid()) ==> Valid()
    {
      if amount <= 0.0 || billing.customerID == "" || billing.name == ""
         || billing.email == "" || billing.phone == "" {
        return Err(InvalidRequest);
      }
      if billing.customerID !in carts {
        return Err(CartNotFound);
      }
      var cart := carts[billing.customerID];
      var total := ComputeTotal(cart.items);
      if total != amount {
        return Err(AmountMismatch);
      }
      var orderItems := CopyItems(cart.items);
      var order := Order(
        id := orderID,
        status := PaymentProcessed,
        amount := total,
        items := orderItems,
        fulfilled := false,
        paymentDone := true,
        customer := billing,
        processedBy := "System",
        refunded := false,
        cancelled := false);
      orders := orders[orderID := order];
      r := Ok(order);
      if old(Valid()) {
        Properties.ApplyPreservesInv(old(Snapshot()), Properties.PaymentRequest(orderID, amount, billing));
      }
    }

    method WaitGracePeriod(orderID: string) returns (r: Result<Order>)
      modifies this
      ensures Lifecycle.Step(Snapshot(), r) == Lifecycle.WaitGracePeriod(old(Snapshot()), orderID)
      ensures old(Valid()) ==> Valid()
    {
      if orderID == "" {
        return Err(InvalidRequest);
      }
      if orderID !in orders {
        return Err(OrderNotFound);
      }
      var order := orders[orderID].(status := GracePeriodCompleted);
      orders := orders[orderID := order];
      r := Ok(order);
    }

    method RouteOrder(orderID: string) returns (r: Result<Order>)
      modifies this
      ensures Lifecycle.Step(Snapshot(), r) == Lifecycle.RouteOrder(old(Snapshot()), orderID)
      ensures old(Valid()) ==> Valid()
    {
      if orderID == "" {
        return Err(MissingOrderID);
      }
      if orderID !in orders {
        return Err(OrderNotFound);
      }
      var order := orders[orderID].(status := OrderRouted);
      orders := orders[orderID := order];
      r := Ok(order);
    }

    method FulfillOrder(orderID: string) returns (r: Result<Order>)
      modifies this
      ensures Lifecycle.Step(Snapshot(), r) == Lifecycle.FulfillOrder(old(Snapshot()), orderID)
      ensures old(Valid()) ==> Valid()
    {
      if orderID == "" {
        return Err(MissingOrderID);
      }
      if orderID !in orders {
        return Err(OrderNotFound);
      }
      var order := orders[orderID];
      if order.status != OrderRouted {
        return Err(OrderNotRouted);
      }
      order := order.(status := FulfillmentCompleted, fulfilled := true);
      orders := orders[orderID := order];
      r := Ok(order);
    }

    method CapturePayment(orderID: string) returns (r: Result<Order>)
      modifies this
      ensures Lifecycle.Step(Snapshot(), r) == Lifecycle.CapturePayment(old(Snapshot()), orderID)
      ensures old(Valid()) ==> Valid()
    {
      if orderID == "" {
        return Err(MissingOrderID);
      }
      if orderID !in orders {
        return Err(OrderNotFound);
      }
      var order := orders[orderID];
      if !order.fulfilled {
        return Err(OrderNotFulfilled);
      }
      order := order.(status := PaymentCaptured, paymentDone := true);
      orders := orders[orderID := order];
      r := Ok(order);
    }

    method RefundPayment(orderID: string) returns (r: Result<Order>)
      modifies this
      ensures Lifecycle.Step(Snapshot(), r) == Lifecycle.RefundPayment(old(Snapshot()), orderID)
      ensures old(Valid()) ==> Valid()
      ensures old(Valid()) ==> r != Err(PaymentNotProcessed)
    {
      if orderID == "" {
        return Err(MissingOrderID);
      }
      if orderID !in orders {
        return Err(OrderNotFound);
      }
      var order := orders[orderID];
      if !order.paymentDone {
        return Err(PaymentNotProcessed);
      }
      if order.refunded {
        return Err(PaymentAlreadyRefunded);
      }
      order := order.(status := PaymentRefunded, refunded := true);
      orders := orders[orderID := order];
      r := Ok(order);
    }

    method CancelOrder(orderID: string) returns (r: Result<Order>)
      modifies this
      ensures Lifecycle.Step(Snapshot(), r) == Lifecycle.CancelOrder(old(Snapshot()), orderID)
      ensures old(Valid()) ==> Valid()
    {
      if orderID == "" {
        return Err(MissingOrderID);
      }
      if orderID !in orders {
        return Err(OrderNotFound);
      }
      var order := orders[orderID];
      if order.fulfilled {
        return Err(OrderAlreadyFulfilled);
      }
      if order.cancelled {
        return Err(OrderAlreadyCancelled);
      }
      order := order.(status := OrderCancelled, cancelled := true);
      orders := orders[orderID := order];
      r := Ok(order);
    }

    /**
     * Every stored order, one entry per order id, in no particular order;
     * empty exactly when no order was stored. `keys` names, position by
     * position, the id each entry was listed under. In a valid store each
     * order carries its own key, so no order is listed twice.
     */
    method ListOrders() returns (listing: seq<Order>, ghost keys: seq<string>)
      ensures |listing| == |orders|
      ensures forall id :: id in orders ==> orders[id] in listing
      ensures forall i :: 0 <= i < |listing| ==> listing[i] in orders.Values
      ensures Valid() ==> forall i, j :: 0 <= i < j < |listing| ==> listing[i] != listing[j]
      ensures |keys| == |listing|
      ensures forall i :: 0 <= i < |keys| ==> keys[i] in orders && listing[i] == orders[keys[i]]
      ensures forall i, j :: 0 <= i < j < |keys| ==> keys[i] != keys[j]
      ensures forall id :: id in orders ==> id in keys
    {
      listing := [];
      keys := [];
      var pending := orders.Keys;
      while pending != {}
        invariant pending <= orders.Keys
        invariant |listing| + |pending| == |orders.Keys|
        invariant |keys| == |listing|
        invariant forall i :: 0 <= i < |keys| ==> keys[i] in orders && listing[i] == orders[keys[i]]
        invariant forall i :: 0 <= i < |keys| ==> keys[i] !in pending
        invariant forall i, j :: 0 <= i < j < |keys| ==> keys[i] != keys[j]
        invariant forall id :: id in orders && id !in pending ==> id in keys
        invariant forall id :: id in orders && id !in pending ==> orders[id] in listing
        invariant forall i :: 0 <= i < |listing| ==> listing[i] in orders.Values
        invariant Valid() ==> forall i :: 0 <= i < |listing| ==> listing[i].id !in pending
        invariant Valid() ==> forall i, j :: 0 <= i < j < |listing| ==> listing[i] != listing[j]
        decreases |pending|
      {
        var id :| id in pending;
        listing := listing + [orders[id]];
        keys := keys + [id];
        pending := pending - {id};
      }
    }
  }
}
