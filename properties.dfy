/**
 * What the lifecycle functions guarantee over several requests: the store
 * invariant every sequence of requests keeps, the guards that make repeated
 * refunds and cancellations fail, the orderings the handlers do and do not
 * enforce, and the walkthroughs of the checkout flow.
 */
module Properties {
  import opened OrderModel
  import opened Lifecycle

  /** One request to the service, with its arguments already parsed. */
  datatype Request =
    | CreateCartRequest(customerID: string, items: seq<Item>, cartID: string)
    | PaymentRequest(orderID: string, amount: real, billing: BillingAddress)
    | GracePeriodRequest(orderID: string)
    | RouteRequest(orderID: string)
    | FulfillRequest(orderID: string)
    | CaptureRequest(orderID: string)
    | RefundRequest(orderID: string)
    | CancelRequest(orderID: string)

  /** The stores after one request. */
  function Apply(s: State, req: Request): State {
    match req
    case CreateCartRequest(c, items, cartID) => CreateCart(s, c, items, cartID).state
    case PaymentRequest(id, amount, billing) => ProcessPayment(s, id, amount, billing).state
    case GracePeriodRequest(id) => WaitGracePeriod(s, id).state
    case RouteRequest(id) => RouteOrder(s, id).state
    case FulfillRequest(id) => FulfillOrder(s, id).state
    case CaptureRequest(id) => CapturePayment(s, id).state
    case RefundRequest(id) => RefundPayment(s, id).state
    case CancelRequest(id) => CancelOrder(s, id).state
  }

  /** The stores after a sequence of requests, served one at a time. */
  function Run(s: State, reqs: seq<Request>): State
    decreases |reqs|
  {
    if reqs == [] then s else Run(Apply(s, reqs[0]), reqs[1..])
  }

  /** Storing one order that satisfies the invariant under its own key keeps the invariant. */
  lemma StoreOrderPreservesInv(s: State, s': State, id: string, o: Order)
    requires Inv(s)
    requires OnlyOrderChanged(s, s', id, o)
    requires o.paymentDone && o.id == id && o.amount == OrderTotal(o.items)
    ensures Inv(s')
  {
  }

  /** Every request keeps the store invariant. */
  lemma ApplyPreservesInv(s: State, req: Request)
    requires Inv(s)
    ensures Inv(Apply(s, req))
  {
    var r: Step<Order>;
    match req {
      case CreateCartRequest(c, items, cartID) =>
        return;
      case PaymentRequest(id, amount, billing) =>
        r := ProcessPayment(s, id, amount, billing);
        if r.result.Ok? {
          ConvertPreservesTotal(s.carts[billing.customerID].items);
          assert r.result.value.items == ConvertItems(s.carts[billing.customerID].items);
        }
      case GracePeriodRequest(id) => r := WaitGracePeriod(s, id);
      case RouteRequest(id) => r := RouteOrder(s, id);
      case FulfillRequest(id) => r := FulfillOrder(s, id);
      case CaptureRequest(id) => r := CapturePayment(s, id);
      case RefundRequest(id) => r := RefundPayment(s, id);
      case CancelRequest(id) => r := CancelOrder(s, id);
    }
    assert r.state == Apply(s, req);
    if r.result.Ok? {
      StoreOrderPreservesInv(s, r.state, req.orderID, r.result.value);
    }
  }

  /** Every sequence of requests keeps the store invariant. */
  lemma {:induction false} RunPreservesInv(s: State, reqs: seq<Request>)
    requires Inv(s)
    ensures Inv(Run(s, reqs))
    decreases |reqs|
  {
    if reqs != [] {
      ApplyPreservesInv(s, reqs[0]);
      RunPreservesInv(Apply(s, reqs[0]), reqs[1..]);
    }
  }

  /**
   * In every store the service can reach, every order is marked paid, so the
   * refund handler's PaymentNotProcessed answer never occurs.
   */
  lemma RefundNeverFindsUnpaidOrder(reqs: seq<Request>, id: string)
    ensures forall k :: k in Run(Empty, reqs).orders ==> Run(Empty, reqs).orders[k].paymentDone
    ensures RefundPayment(Run(Empty, reqs), id).result != Err(PaymentNotProcessed)
  {
    RunPreservesInv(Empty, reqs);
  }

  /** A successful refund makes the next refund of that order fail without a change. */
  lemma RefundTwice(s: State, id: string)
    requires RefundPayment(s, id).result.Ok?
    ensures var s' := RefundPayment(s, id).state;
            RefundPayment(s', id) == Step(s', Err(PaymentAlreadyRefunded))
  {
  }

  /** A successful cancellation makes the next cancellation of that order fail without a change. */
  lemma CancelTwice(s: State, id: string)
    requires CancelOrder(s, id).result.Ok?
    ensures var s' := CancelOrder(s, id).state;
            CancelOrder(s', id) == Step(s', Err(OrderAlreadyCancelled))
  {
  }

  /** Once fulfilled, an order cannot be cancelled by the next request. */
  lemma CancelAfterFulfil(s: State, id: string)
    requires FulfillOrder(s, id).result.Ok?
    ensures var s' := FulfillOrder(s, id).state;
            CancelOrder(s', id) == Step(s', Err(OrderAlreadyFulfilled))
  {
  }

  /**
   * A freshly paid order can be neither captured (it is not fulfilled) nor
   * fulfilled (it is not routed).
   */
  lemma FreshOrderGuards(s: State, id: string, amount: real, billing: BillingAddress)
    requires id != ""
    requires ProcessPayment(s, id, amount, billing).result.Ok?
    ensures var s' := ProcessPayment(s, id, amount, billing).state;
            && CapturePayment(s', id) == Step(s', Err(OrderNotFulfilled))
            && FulfillOrder(s', id) == Step(s', Err(OrderNotRouted))
  {
  }

  /**
   * The handlers do not make the statuses "Payment Captured", "Payment
   * Refunded" and "Order Cancelled" final: a captured order can be refunded,
   * a refunded order can be cancelled while unfulfilled, and a cancelled
   * order can be routed.
   */
  lemma TerminalStatusesAreLeft(s: State, id: string)
    requires id != "" && id in s.orders
    ensures var o := s.orders[id];
            && (o.status == PaymentCaptured && o.paymentDone && !o.refunded ==>
                  RefundPayment(s, id).result.Ok?)
            && (o.status == PaymentRefunded && !o.fulfilled && !o.cancelled ==>
                  CancelOrder(s, id).result.Ok?)
            && (o.status == OrderCancelled ==>
                  RouteOrder(s, id).result.Ok? && RouteOrder(s, id).result.value.status == OrderRouted)
  {
  }

  /**
   * Cancelling, then routing, then fulfilling an order succeeds at each step
   * and leaves an order that is both cancelled and fulfilled: the handlers do
   * not keep the two flags exclusive.
   */
  lemma {:induction false} CancelledOrderCanBeFulfilled(s: State, id: string)
    requires id != "" && id in s.orders
    requires !s.orders[id].fulfilled && !s.orders[id].cancelled
    ensures var cancel := CancelOrder(s, id);
            var route := RouteOrder(cancel.state, id);
            var fulfil := FulfillOrder(route.state, id);
            && cancel.result.Ok? && route.result.Ok? && fulfil.result.Ok?
            && fulfil.result.value.cancelled && fulfil.result.value.fulfilled
            && id in fulfil.state.orders && fulfil.state.orders[id] == fulfil.result.value
  {
  }

  /**
   * Creating a cart for a customer who already has one leaves the stores
   * exactly as if only the second cart had been created: the first cart and
   * its identifier are gone.
   */
  lemma LastCartWins(s: State, customerID: string, items1: seq<Item>, cartID1: string,
                     items2: seq<Item>, cartID2: string)
    requires customerID != "" && items1 != [] && items2 != []
    ensures var first := CreateCart(s, customerID, items1, cartID1);
            CreateCart(first.state, customerID, items2, cartID2) == CreateCart(s, customerID, items2, cartID2)
  {
  }

  /**
   * Paying again under an order id that is in use replaces the order: the
   * new order starts over unfulfilled, unrefunded and uncancelled.
   */
  lemma PaymentReplacesOrder(s: State, id: string, amount: real, billing: BillingAddress)
    requires id in s.orders
    requires ProcessPayment(s, id, amount, billing).result.Ok?
    ensures var s' := ProcessPayment(s, id, amount, billing).state;
            && s'.orders.Keys == s.orders.Keys
            && !s'.orders[id].fulfilled && !s'.orders[id].cancelled && !s'.orders[id].refunded
            && s'.orders[id].status == PaymentProcessed
  {
  }

  /**
   * An order stored under the empty key, as a payment without an order id
   * leaves it, is out of reach: every transition rejects the empty id before
   * it looks the order up, so only another payment without an order id can
   * change it.
   */
  lemma EmptyKeyOutOfReach(s: State, req: Request)
    requires "" in s.orders
    requires !(req.PaymentRequest? && req.orderID == "")
    ensures "" in Apply(s, req).orders && Apply(s, req).orders[""] == s.orders[""]
  {
  }

  /** No sequence of requests without an id-less payment changes the order under the empty key. */
  lemma {:induction false} RunLeavesEmptyKey(s: State, reqs: seq<Request>)
    requires "" in s.orders
    requires forall i :: 0 <= i < |reqs| ==> !(reqs[i].PaymentRequest? && reqs[i].orderID == "")
    ensures "" in Run(s, reqs).orders && Run(s, reqs).orders[""] == s.orders[""]
    decreases |reqs|
  {
    if reqs != [] {
      EmptyKeyOutOfReach(s, reqs[0]);
      RunLeavesEmptyKey(Apply(s, reqs[0]), reqs[1..]);
    }
  }

  // ----------------------------------------------------------- walkthroughs

  const JohnDoeBilling: BillingAddress := BillingAddress(
    "cust_12345", "John Doe", "john@example.com", "555-5555",
    "123 Main St", "New York", "10001", "USA")

  /**
   * The payment request of the repository's test: a laptop at 1000 and two
   * mice at 50, paid with 1100 and no order id.
   */
  lemma PaymentTestWalkthrough()
    ensures var cart := [Item("item001", "Laptop", 1, 1000.0), Item("item002", "Mouse", 2, 50.0)];
            var created := CreateCart(Empty, "cust_12345", cart, "cart-1");
            var paid := ProcessPayment(created.state, "", 1100.0, JohnDoeBilling);
            && created.result.Ok?
            && paid.result.Ok?
            && StatusText(paid.result.value.status) == "Payment Processed"
            && paid.result.value.amount == 1100.0
            && paid.result.value.customer.name == "John Doe"
  {
  }

  /**
   * One order through payment, premature capture and fulfilment, routing,
   * fulfilment, capture and two refunds; and a payment that does not match
   * the cart total.
   */
  lemma CheckoutWalkthrough()
    ensures var created := CreateCart(Empty, "cust_12345", [Item("A", "A", 1, 1000.0)], "cart-1");
            var paid := ProcessPayment(created.state, "o1", 1000.0, JohnDoeBilling);
            var routed := RouteOrder(paid.state, "o1");
            var fulfilled := FulfillOrder(routed.state, "o1");
            var captured := CapturePayment(fulfilled.state, "o1");
            var refunded := RefundPayment(captured.state, "o1");
            && paid.result.Ok? && paid.result.value.status == PaymentProcessed
            && paid.result.value.amount == 1000.0
            && CapturePayment(paid.state, "o1").result == Err(OrderNotFulfilled)
            && FulfillOrder(paid.state, "o1").result == Err(OrderNotRouted)
            && fulfilled.result.Ok? && fulfilled.result.value.status == FulfillmentCompleted
            && fulfilled.result.value.fulfilled
            && captured.result.Ok? && captured.result.value.status == PaymentCaptured
            && refunded.result.Ok? && refunded.result.value.status == PaymentRefunded
            && RefundPayment(refunded.state, "o1").result == Err(PaymentAlreadyRefunded)
            && ProcessPayment(created.state, "o2", 999.0, JohnDoeBilling) == Step(created.state, Err(AmountMismatch))
            && created.state.orders == map[]
  {
  }
}
