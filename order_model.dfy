/**
 * The records of the order service: carts, billing addresses, orders and
 * their items, the error codes of the error envelope, and the totals the
 * payment check compares.
 */
module OrderModel {

  /** The error codes the handlers put in the `code` field of their error envelope. */
  datatype ErrorCode =
    | InvalidRequest
    | MissingOrderID
    | CartNotFound
    | AmountMismatch
    | OrderNotFound
    | OrderNotRouted
    | OrderNotFulfilled
    | PaymentNotProcessed
    | PaymentAlreadyRefunded
    | OrderAlreadyFulfilled
    | OrderAlreadyCancelled

  /** What a handler answers: the record it produced, or an error code. */
  datatype Result<T> = Ok(value: T) | Err(code: ErrorCode)

  /**
   * The statuses a handler ever writes into an order. The source keeps the
   * status as a string; StatusText gives that string.
   */
  datatype Status =
    | PaymentProcessed
    | GracePeriodCompleted
    | OrderRouted
    | FulfillmentCompleted
    | PaymentCaptured
    | PaymentRefunded
    | OrderCancelled

  function StatusText(status: Status): string {
    match status
    case PaymentProcessed => "Payment Processed"
    case GracePeriodCompleted => "Grace Period Completed"
    case OrderRouted => "Order Routed"
    case FulfillmentCompleted => "Fulfillment Completed"
    case PaymentCaptured => "Payment Captured"
    case PaymentRefunded => "Payment Refunded"
    case OrderCancelled => "Order Cancelled"
  }

  /**
   * Distinct statuses have distinct strings, so the string comparison the
   * fulfil handler makes is the same as comparing statuses.
   */
  lemma StatusTextInjective(a: Status, b: Status)
    ensures StatusText(a) == StatusText(b) <==> a == b
  {
  }

  /** A line of a cart. Amounts are exact; quantity and price are not validated. */
  datatype Item = Item(itemID: string, name: string, quantity: int, price: real)

  /** A line of an order: the same fields as a cart line, in its own type. */
  datatype OrderItem = OrderItem(itemID: string, name: string, quantity: int, price: real)

  datatype Cart = Cart(cartID: string, customerID: string, items: seq<Item>)

  datatype BillingAddress = BillingAddress(
    customerID: string,
    name: string,
    email: string,
    phone: string,
    address: string,
    city: string,
    postalCode: string,
    country: string)

  datatype Order = Order(
    id: string,
    status: Status,
    amount: real,
    items: seq<OrderItem>,
    fulfilled: bool,
    paymentDone: bool,
    customer: BillingAddress,
    processedBy: string,
    refunded: bool,
    cancelled: bool)

  /** Quantity times unit price, the way the payment handler adds a cart line. */
  function LineTotal(item: Item): real {
    item.quantity as real * item.price
  }

  function OrderLineTotal(item: OrderItem): real {
    item.quantity as real * item.price
  }

  /** The cart total: the sum of quantity times price over the lines. */
  function CartTotal(items: seq<Item>): real {
    if items == [] then 0.0 else LineTotal(items[0]) + CartTotal(items[1..])
  }

  /** The same sum over the lines of an order. */
  function OrderTotal(items: seq<OrderItem>): real {
    if items == [] then 0.0 else OrderLineTotal(items[0]) + OrderTotal(items[1..])
  }

  /** `orderItems` repeats `items` field by field, in the same order. */
  ghost predicate Mirrors(orderItems: seq<OrderItem>, items: seq<Item>) {
    && |orderItems| == |items|
    && forall i :: 0 <= i < |items| ==>
         && orderItems[i].itemID == items[i].itemID
         && orderItems[i].name == items[i].name
         && orderItems[i].quantity == items[i].quantity
         && orderItems[i].price == items[i].price
  }

  /** The order lines built from a cart's lines when the order is created. */
  function ConvertItems(items: seq<Item>): (r: seq<OrderItem>)
    ensures Mirrors(r, items)
  {
    if items == [] then []
    else
      var head := OrderItem(items[0].itemID, items[0].name, items[0].quantity, items[0].price);
      [head] + ConvertItems(items[1..])
  }

  /** The cart total of a concatenation is the sum of the two totals. */
  lemma {:induction false} CartTotalAppend(a: seq<Item>, b: seq<Item>)
    ensures CartTotal(a + b) == CartTotal(a) + CartTotal(b)
  {
    if a != [] {
      assert (a + b)[1..] == a[1..] + b;
      CartTotalAppend(a[1..], b);
    } else {
      assert a + b == b;
    }
  }

  /** Copying the cart lines into an order keeps the total. */
  lemma {:induction false} ConvertPreservesTotal(items: seq<Item>)
    ensures OrderTotal(ConvertItems(items)) == CartTotal(items)
  {
    if items != [] {
      ConvertPreservesTotal(items[1..]);
      assert ConvertItems(items)[1..] == ConvertItems(items[1..]);
    }
  }
}
