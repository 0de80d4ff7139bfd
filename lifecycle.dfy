/**
 * The order lifecycle as functions on the two stores: the carts keyed by
 * customer id and the orders keyed by order id. Each function is one handler
 * with its parsing, logging and response encoding stripped: it takes the
 * already parsed arguments and the stores, and gives the new stores together
 * with the record or error code the handler answers.
 */
module Lifecycle {
  import opened OrderModel

  datatype State = State(carts: map<string, Cart>, orders: map<string, Order>)

  /** The stores after a handler ran, and what the handler answered. */
  datatype Step<T> = Step(state: State, result: Result<T>)

  /** The stores when the service starts. */
  const Empty: State := State(map[], map[])

  /** `m'` is `m` with key `k` bound to `v`, and every other key as it was. */
  ghost predicate Overwrites<V>(m: map<string, V>, m': map<string, V>, k: string, v: V) {
    && m'.Keys == m.Keys + {k}
    && k in m' && m'[k] == v
    && forall j :: j in m && j != k ==> m'[j] == m[j]
  }

  /** Only order `id` changed, to `o`; the carts did not change. */
  ghost predicate OnlyOrderChanged(s: State, s': State, id: string, o: Order) {
    s'.carts == s.carts && Overwrites(s.orders, s'.orders, id, o)
  }

  /** The fields no transition writes: identity, amount, lines, customer and processor. */
  ghost predicate SameBooking(o: Order, o': Order) {
    && o'.id == o.id
    && o'.amount == o.amount
    && o'.items == o.items
    && o'.customer == o.customer
    && o'.processedBy == o.processedBy
  }

  /**
   * The store invariant: every order was paid, carries its own key as id, and
   * charges the total of its lines; every cart is filed under its customer and
   * has at least one line.
   */
  ghost predicate Inv(s: State) {
    && (forall id :: id in s.orders ==>
          && s.orders[id].paymentDone
          && s.orders[id].id == id
          && s.orders[id].amount == OrderTotal(s.orders[id].items))
    && (forall c :: c in s.carts ==> s.carts[c].customerID == c && s.carts[c].items != [])
  }

  // ---------------------------------------------------------------- carts

  /**
   * Create or replace the cart of a customer. An empty customer id or an
   * empty item list is rejected; otherwise the new cart wins over any older
   * one. `cartID` is the fresh identifier the handler draws for the cart.
   */
  function CreateCart(s: State, customerID: string, items: seq<Item>, cartID: string): (r: Step<Cart>)
    ensures r.result.Err? <==> customerID == "" || items == []
    ensures r.result.Err? ==> r.result.code == InvalidRequest && r.state == s
    ensures r.result.Ok? ==>
      && r.result.value.cartID == cartID
      && r.result.value.customerID == customerID
      && r.result.value.items == items
      && Overwrites(s.carts, r.state.carts, customerID, r.result.value)
      && r.state.orders == s.orders
  {
    if customerID == "" || |items| == 0 then
      Step(s, Err(InvalidRequest))
    else
      var cart := Cart(cartID, customerID, items);
      Step(s.(carts := s.carts[customerID := cart]), Ok(cart))
  }

  // ------------------------------------------------------------- payment

  /** The first check of the payment handler: a positive amount and four billing fields. */
  predicate PaymentRequestValid(amount: real, billing: BillingAddress) {
    && amount > 0.0
    && billing.customerID != ""
    && billing.name != ""
    && billing.email != ""
    && billing.phone != ""
  }

  /**
   * Validate a payment against the customer's cart and create the order.
   * The checks stop at the first failure: the request fields, then the cart's
   * existence, then the exact match of the amount with the cart total. On
   * success the order is stored under `orderID`, replacing any order there.
   */
  function ProcessPayment(s: State, orderID: string, amount: real, billing: BillingAddress): (r: Step<Order>)
    ensures r.result.Err? ==> r.state == s
    ensures !PaymentRequestValid(amount, billing) ==> r.result == Err(InvalidRequest)
    ensures PaymentRequestValid(amount, billing) && billing.customerID !in s.carts ==>
      r.result == Err(CartNotFound)
    ensures PaymentRequestValid(amount, billing) && billing.customerID in s.carts
            && CartTotal(s.carts[billing.customerID].items) != amount ==>
      r.result == Err(AmountMismatch)
    ensures r.result.Ok? <==>
      && PaymentRequestValid(amount, billing)
      && billing.customerID in s.carts
      && CartTotal(s.carts[billing.customerID].items) == amount
    ensures r.result.Ok? ==>
      var order := r.result.value;
      && order.id == orderID
      && order.status == PaymentProcessed
      && order.amount == amount
      && Mirrors(order.items, s.carts[billing.customerID].items)
      && order.paymentDone
      && !order.fulfilled && !order.refunded && !order.cancelled
      && order.customer == billing
      && order.processedBy == "System"
      && OnlyOrderChanged(s, r.state, orderID, order)
  {
    if !PaymentRequestValid(amount, billing) then
      Step(s, Err(InvalidRequest))
    else if billing.customerID !in s.carts then
      Step(s, Err(CartNotFound))
    else
      var cart := s.carts[billing.customerID];
      var total := CartTotal(cart.items);
      if total != amount then
        Step(s, Err(AmountMismatch))
      else
        var order := Order(
          id := orderID,
          status := PaymentProcessed,
          amount := total,
          items := ConvertItems(cart.items),
          fulfilled := false,
          paymentDone := true,
          customer := billing,
          processedBy := "System",
          refunded := false,
          cancelled := false);
        Step(s.(orders := s.orders[orderID := order]), Ok(order))
  }

  // --------------------------------------------------------- transitions

  /**
   * The lookup every transition starts with: an empty id is answered with
   * `missing` (the handlers differ in that code), an unknown one with
   * OrderNotFound.
   */
  function Find(s: State, id: string, missing: ErrorCode): Result<Order> {
    if id == "" then Err(missing)
    else if id !in s.orders then Err(OrderNotFound)
    else Ok(s.orders[id])
  }

  /** Store the updated order under `id` and answer it. */
  function Commit(s: State, id: string, order: Order): Step<Order> {
    Step(s.(orders := s.orders[id := order]), Ok(order))
  }

  /** End the grace period of an order, whatever its status. */
  function WaitGracePeriod(s: State, id: string): (r: Step<Order>)
    ensures r.result.Ok? <==> id != "" && id in s.orders
    ensures id == "" ==> r.result == Err(InvalidRequest)
    ensures id != "" && id !in s.orders ==> r.result == Err(OrderNotFound)
    ensures r.result.Err? ==> r.state == s
    ensures r.result.Ok? ==>
      var (o, o') := (s.orders[id], r.result.value);
      && SameBooking(o, o')
      && o'.status == GracePeriodCompleted
      && o'.fulfilled == o.fulfilled && o'.paymentDone == o.paymentDone
      && o'.refunded == o.refunded && o'.cancelled == o.cancelled
      && OnlyOrderChanged(s, r.state, id, o')
  {
    match Find(s, id, InvalidRequest)
    case Err(e) => Step(s, Err(e))
    case Ok(o) => Commit(s, id, o.(status := GracePeriodCompleted))
  }

  /** Route an order, whatever its status; routing always succeeds. */
  function RouteOrder(s: State, id: string): (r: Step<Order>)
    ensures r.result.Ok? <==> id != "" && id in s.orders
    ensures id == "" ==> r.result == Err(MissingOrderID)
    ensures id != "" && id !in s.orders ==> r.result == Err(OrderNotFound)
    ensures r.result.Err? ==> r.state == s
    ensures r.result.Ok? ==>
      var (o, o') := (s.orders[id], r.result.value);
      && SameBooking(o, o')
      && o'.status == OrderRouted
      && o'.fulfilled == o.fulfilled && o'.paymentDone == o.paymentDone
      && o'.refunded == o.refunded && o'.cancelled == o.cancelled
      && OnlyOrderChanged(s, r.state, id, o')
  {
    match Find(s, id, MissingOrderID)
    case Err(e) => Step(s, Err(e))
    case Ok(o) => Commit(s, id, o.(status := OrderRouted))
  }

  /** Fulfil an order; only an order whose status is "Order Routed" can be fulfilled. */
  function FulfillOrder(s: State, id: string): (r: Step<Order>)
    ensures r.result.Ok? <==> id != "" && id in s.orders && s.orders[id].status == OrderRouted
    ensures id == "" ==> r.result == Err(MissingOrderID)
    ensures id != "" && id !in s.orders ==> r.result == Err(OrderNotFound)
    ensures id != "" && id in s.orders && s.orders[id].status != OrderRouted ==>
      r.result == Err(OrderNotRouted)
    ensures r.result.Err? ==> r.state == s
    ensures r.result.Ok? ==>
      var (o, o') := (s.orders[id], r.result.value);
      && SameBooking(o, o')
      && o'.status == FulfillmentCompleted
      && o'.fulfilled
      && o'.paymentDone == o.paymentDone && o'.refunded == o.refunded && o'.cancelled == o.cancelled
      && OnlyOrderChanged(s, r.state, id, o')
  {
    match Find(s, id, MissingOrderID)
    case Err(e) => Step(s, Err(e))
    case Ok(o) =>
      if o.status != OrderRouted then Step(s, Err(OrderNotRouted))
      else Commit(s, id, o.(status := FulfillmentCompleted, fulfilled := true))
  }

  /** Capture the payment of an order; only a fulfilled order can be captured. */
  function CapturePayment(s: State, id: string): (r: Step<Order>)
    ensures r.result.Ok? <==> id != "" && id in s.orders && s.orders[id].fulfilled
    ensures id == "" ==> r.result == Err(MissingOrderID)
    ensures id != "" && id !in s.orders ==> r.result == Err(OrderNotFound)
    ensures id != "" && id in s.orders && !s.orders[id].fulfilled ==>
      r.result == Err(OrderNotFulfilled)
    ensures r.result.Err? ==> r.state == s
    ensures r.result.Ok? ==>
      var (o, o') := (s.orders[id], r.result.value);
      && SameBooking(o, o')
      && o'.status == PaymentCaptured
      && o'.paymentDone
      && o'.fulfilled == o.fulfilled && o'.refunded == o.refunded && o'.cancelled == o.cancelled
      && OnlyOrderChanged(s, r.state, id, o')
  {
    match Find(s, id, MissingOrderID)
    case Err(e) => Step(s, Err(e))
    case Ok(o) =>
      if !o.fulfilled then Step(s, Err(OrderNotFulfilled))
      else Commit(s, id, o.(status := PaymentCaptured, paymentDone := true))
  }

  /**
   * Refund the payment of an order. The paid flag is checked before the
   * refunded flag, so each failure has its own code.
   */
  function RefundPayment(s: State, id: string): (r: Step<Order>)
    ensures r.result.Ok? <==>
      id != "" && id in s.orders && s.orders[id].paymentDone && !s.orders[id].refunded
    ensures id == "" ==> r.result == Err(MissingOrderID)
    ensures id != "" && id !in s.orders ==> r.result == Err(OrderNotFound)
    ensures id != "" && id in s.orders && !s.orders[id].paymentDone ==>
      r.result == Err(PaymentNotProcessed)
    ensures id != "" && id in s.orders && s.orders[id].paymentDone && s.orders[id].refunded ==>
      r.result == Err(PaymentAlreadyRefunded)
    ensures r.result.Err? ==> r.state == s
    ensures r.result.Ok? ==>
      var (o, o') := (s.orders[id], r.result.value);
      && SameBooking(o, o')
      && o'.status == PaymentRefunded
      && o'.refunded
      && o'.fulfilled == o.fulfilled && o'.paymentDone == o.paymentDone && o'.cancelled == o.cancelled
      && OnlyOrderChanged(s, r.state, id, o')
  {
    match Find(s, id, MissingOrderID)
    case Err(e) => Step(s, Err(e))
    case Ok(o) =>
      if !o.paymentDone then Step(s, Err(PaymentNotProcessed))
      else if o.refunded then Step(s, Err(PaymentAlreadyRefunded))
      else Commit(s, id, o.(status := PaymentRefunded, refunded := true))
  }

  /**
   * Cancel an order. The fulfilled flag is checked before the cancelled
   * flag, so a fulfilled order is never cancelled.
   */
  function CancelOrder(s: State, id: string): (r: Step<Order>)
    ensures r.result.Ok? <==>
      id != "" && id in s.orders && !s.orders[id].fulfilled && !s.orders[id].cancelled
    ensures id == "" ==> r.result == Err(MissingOrderID)
    ensures id != "" && id !in s.orders ==> r.result == Err(OrderNotFound)
    ensures id != "" && id in s.orders && s.orders[id].fulfilled ==>
      r.result == Err(OrderAlreadyFulfilled)
    ensures id != "" && id in s.orders && !s.orders[id].fulfilled && s.orders[id].cancelled ==>
      r.result == Err(OrderAlreadyCancelled)
    ensures r.result.Err? ==> r.state == s
    ensures r.result.Ok? ==>
      var (o, o') := (s.orders[id], r.result.value);
      && SameBooking(o, o')
      && o'.status == OrderCancelled
      && o'.cancelled
      && o'.fulfilled == o.fulfilled && o'.paymentDone == o.paymentDone && o'.refunded == o.refunded
      && OnlyOrderChanged(s, r.state, id, o')
  {
    match Find(s, id, MissingOrderID)
    case Err(e) => Step(s, Err(e))
    case Ok(o) =>
      if o.fulfilled then Step(s, Err(OrderAlreadyFulfilled))
      else if o.cancelled then Step(s, Err(OrderAlreadyCancelled))
      else Commit(s, id, o.(status := OrderCancelled, cancelled := true))
  }
}
