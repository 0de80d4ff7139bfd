# Order lifecycle of order-app, in Dafny

order-app is a small checkout service written in Go. It keeps two in-memory maps: the current cart of each customer, and the orders keyed by an order id. Its HTTP handlers work on these maps:

- a customer's cart is created or replaced;
- a payment is validated against the cart, and an order is created from it;
- the order is then driven through statuses by separate requests: grace period, routing, fulfilment, capture, refund and cancellation;
- all orders can be listed.

This project models those handlers without their transport, parsing and logging, and proves what they guarantee.

- `order_model.dfy` (module `OrderModel`) holds the records: items, carts, billing addresses and orders. It also holds the error codes of the error envelope, the statuses, and the cart total that the payment check compares.
- `lifecycle.dfy` (module `Lifecycle`) has one pure function per handler. Each takes the two maps as a `State` value plus the parsed arguments, and returns the new state together with the handler's answer, an order or cart or an error code. Their contracts state the guards, the order in which the checks run, the error code of each failure, and the effect of success. On every failure the state is unchanged, and on success only the key the request names changes. `Inv` is the store invariant.
- `properties.dfy` (module `Properties`) proves properties that span several requests. Every sequence of requests keeps the invariant, so a refund never answers `PaymentNotProcessed`. Repeated refunds and repeated cancellations are refused, and a second cart replaces the first completely. It also proves orderings the code does not enforce, and walks through the checkout flow.
- `store.dfy` (module `Handlers`) is the imperative form. A `Store` class holds the two maps as fields, and each handler is a method on it. A method runs its checks first, then writes one key. Its postcondition says the new maps and its answer are exactly what the `Lifecycle` function gives, and that it keeps the invariant. The two loops of the payment handler, which add up the total and copy the lines, are separate methods proved against `CartTotal` and `ConvertItems`. So is the listing of orders.

Behaviour of the code that the model keeps as written:

- The payment check looks at the amount and at only four billing fields: customer id, name, email and phone. Address, city, postal code and country may be empty.
- The payment handler does not check the order id. A request without one stores its order under the empty key, and the repository's own payment test sends no order id. A payment under an id that is already in use replaces that order with a fresh one (`PaymentReplacesOrder`).
- An empty order id is answered with `InvalidRequest` by the grace-period handler and with `MissingOrderID` by every other transition.
- An order stored under the empty key is therefore out of reach of every transition: grace period, routing, fulfilment, capture, refund and cancellation all reject the empty id before any lookup. Only another payment without an order id replaces it (`EmptyKeyOutOfReach`, `RunLeavesEmptyKey`).
- Neither quantities nor prices are validated, so they may be zero or negative.
- "Payment Captured", "Payment Refunded" and "Order Cancelled" are not final. A captured order can be refunded, a refunded order can be cancelled, and a cancelled order can be routed (`TerminalStatusesAreLeft`).
- Cancelling, then routing, then fulfilling leaves an order that is both cancelled and fulfilled (`CancelledOrderCanBeFulfilled`). Cancellation refuses a fulfilled order, but fulfilment does not refuse a cancelled one.
- Every stored order is marked paid from the moment it is created, and nothing clears the mark. The refund handler's `PaymentNotProcessed` branch therefore cannot be reached (`RefundNeverFindsUnpaidOrder`).

## Model

| member | source | states |
|---|---|---|
| `OrderModel.StatusTextInjective` | main.go:370 | two statuses have the same text exactly when they are the same status, so comparing the enum is comparing the status strings |
| `OrderModel.ConvertItems` | main.go:207-216 | the order lines have as many entries as the cart lines, and each repeats the item id, name, quantity and price of the cart line at the same position |
| `OrderModel.CartTotalAppend` | main.go:182-185 | the total of two concatenated line lists is the sum of their totals |
| `OrderModel.ConvertPreservesTotal` | main.go:209-221 | the order lines built from a cart have the same total as the cart |
| `Lifecycle.CreateCart` | main.go:112-128 | an empty customer id or empty item list fails with InvalidRequest and changes nothing; otherwise the customer's cart becomes one with the given cart id, customer id and items, no other cart changes, and the orders stay as they were |
| `Lifecycle.ProcessPayment` | main.go:154-226 | InvalidRequest when the amount is not positive or customer id, name, email or phone is empty; then CartNotFound without a cart; then AmountMismatch when the cart total differs from the amount; success exactly when all three pass; a failure changes nothing; a success stores under the order id (and changes no other key) an order with that id, status Payment Processed, amount equal to the claim and the cart total, lines mirroring the cart, paid, not fulfilled, refunded or cancelled, the billing address as customer and "System" as processor |
| `Lifecycle.WaitGracePeriod` | main.go:236-262 | an empty id fails with InvalidRequest and an unknown one with OrderNotFound, changing nothing; any existing order, whatever its status, gets status Grace Period Completed with every other field and every other key unchanged |
| `Lifecycle.RouteOrder` | main.go:286-316 | an empty id fails with MissingOrderID and an unknown one with OrderNotFound, changing nothing; any existing order gets status Order Routed with every other field and key unchanged |
| `Lifecycle.FulfillOrder` | main.go:345-383 | succeeds exactly on an existing order whose status is Order Routed, setting status Fulfillment Completed and fulfilled, nothing else; otherwise MissingOrderID, OrderNotFound or OrderNotRouted in that order, with no change |
| `Lifecycle.CapturePayment` | main.go:410-448 | succeeds exactly on an existing fulfilled order, setting status Payment Captured and paid, nothing else; otherwise MissingOrderID, OrderNotFound or OrderNotFulfilled, with no change |
| `Lifecycle.RefundPayment` | main.go:475-524 | succeeds exactly on an existing paid, unrefunded order, setting status Payment Refunded and refunded, nothing else; otherwise MissingOrderID, OrderNotFound, PaymentNotProcessed (unpaid is checked first) or PaymentAlreadyRefunded, with no change |
| `Lifecycle.CancelOrder` | main.go:551-600 | succeeds exactly on an existing order neither fulfilled nor cancelled, setting status Order Cancelled and cancelled, nothing else; otherwise MissingOrderID, OrderNotFound, OrderAlreadyFulfilled (checked first) or OrderAlreadyCancelled, with no change |
| `Properties.ApplyPreservesInv` | main.go:218-226 | every request keeps the store invariant: each order is paid, carries its key as id and charges the total of its lines; each cart sits under its customer and has lines |
| `Properties.RunPreservesInv` | main.go:218-226 | every sequence of requests keeps the store invariant |
| `Properties.RefundNeverFindsUnpaidOrder` | main.go:499-509 | in every store reachable from the empty one all orders are paid, so refund never answers PaymentNotProcessed |
| `Properties.RefundTwice` | main.go:511-524 | after a successful refund, refunding the same order again answers PaymentAlreadyRefunded and changes nothing |
| `Properties.CancelTwice` | main.go:587-600 | after a successful cancellation, cancelling the same order again answers OrderAlreadyCancelled and changes nothing |
| `Properties.CancelAfterFulfil` | main.go:576-585 | after a successful fulfilment, cancelling that order answers OrderAlreadyFulfilled and changes nothing |
| `Properties.FreshOrderGuards` | main.go:370-444 | on an order freshly paid under a non-empty id, capture answers OrderNotFulfilled and fulfilment answers OrderNotRouted, both without a change |
| `Properties.TerminalStatusesAreLeft` | main.go:499-600 | a captured, unrefunded order can be refunded; a refunded order that is neither fulfilled nor cancelled can be cancelled; a cancelled order can be routed |
| `Properties.CancelledOrderCanBeFulfilled` | main.go:313-383 | from any order under a non-empty id that is neither fulfilled nor cancelled, cancel, route and fulfil all succeed and the stored order ends both cancelled and fulfilled |
| `Properties.EmptyKeyOutOfReach` | main.go:236-600 | when an order is stored under the empty key, every request except a payment without an order id leaves that key and its order exactly as they were |
| `Properties.RunLeavesEmptyKey` | main.go:236-600 | every sequence of requests without a payment lacking an order id leaves the order under the empty key exactly as it was |
| `Properties.LastCartWins` | main.go:124-128 | two successful cart creations for one customer leave the stores exactly as the second alone would |
| `Properties.PaymentReplacesOrder` | main.go:205-226 | a successful payment under an order id in use keeps the set of ids and replaces that order with one in status Payment Processed that is not fulfilled, refunded or cancelled |
| `Properties.PaymentTestWalkthrough` | main_test.go:69-146 | a cart of one laptop at 1000 and two mice at 50, paid with 1100 and no order id, yields an order with status text "Payment Processed", amount 1100 and customer name John Doe |
| `Properties.CheckoutWalkthrough` | main.go:155-524 | one order: payment of 1000 succeeds; early capture and early fulfilment fail with OrderNotFulfilled and OrderNotRouted; route, fulfil, capture and refund succeed with their statuses; a second refund fails with PaymentAlreadyRefunded; a payment of 999 against the 1000 cart fails with AmountMismatch and creates no order |
| `Handlers.ComputeTotal` | main.go:181-185 | the loop's sum is the cart total |
| `Handlers.CopyItems` | main.go:207-216 | the slice filled by the loop mirrors the cart lines field by field and is the order line list of the model |
| `Handlers.Store.constructor` | main.go:86-96 | the service starts with no carts and no orders, which satisfies the invariant |
| `Handlers.Store.CreateCart` | main.go:112-128 | the new maps and the answer are those of `Lifecycle.CreateCart`; the invariant is kept |
| `Handlers.Store.ProcessPayment` | main.go:154-226 | the checks, the two loops and the single write give exactly `Lifecycle.ProcessPayment`; the invariant is kept |
| `Handlers.Store.WaitGracePeriod` | main.go:236-262 | the new maps and the answer are those of `Lifecycle.WaitGracePeriod`; the invariant is kept |
| `Handlers.Store.RouteOrder` | main.go:286-316 | the new maps and the answer are those of `Lifecycle.RouteOrder`; the invariant is kept |
| `Handlers.Store.FulfillOrder` | main.go:345-383 | the new maps and the answer are those of `Lifecycle.FulfillOrder`; the invariant is kept |
| `Handlers.Store.CapturePayment` | main.go:410-448 | the new maps and the answer are those of `Lifecycle.CapturePayment`; the invariant is kept |
| `Handlers.Store.RefundPayment` | main.go:475-524 | the new maps and the answer are those of `Lifecycle.RefundPayment`; the invariant is kept, and on a valid store the answer is never PaymentNotProcessed |
| `Handlers.Store.CancelOrder` | main.go:551-600 | the new maps and the answer are those of `Lifecycle.CancelOrder`; the invariant is kept |
| `Handlers.Store.ListOrders` | main.go:614-629 | the listing has one entry per stored order id (so it is empty exactly when there are no orders), holds every stored order and nothing else; the ids the entries were listed under are distinct, cover every stored id, and each entry is the order stored under its id; on a valid store no order appears twice, so the listing is a permutation of the stored orders |

## Left out

- HTTP routing, JSON body parsing and response encoding are not modelled, including the InvalidRequest answer to a malformed body (main.go:98-111 and the same block in every handler that parses a JSON body: all except the grace-period handler, which reads a query parameter, and the listing handler, which parses nothing). The operations take already parsed arguments and answer a record or an error code. Response messages are not modelled.
- Logging, the panic-recovery middleware, signal-driven shutdown and `app.Listen` (main.go:646-697) are process plumbing and are not modelled.
- The five-second sleep of the grace period (main.go:259) is timing, not logic. The grace period is an immediate status update.
- The cart id drawn from `uuid.New()` (main.go:125) comes from a foreign call. It is a parameter, and its freshness is not modelled.
- Prices and amounts are float64 in the source. They are exact `real` numbers here, so float rounding of the total and the fragility of the exact `!=` comparison (main.go:182-188) are not modelled. The 64-bit range of quantities is not modelled either.
- The "Routing Failed" branch (main.go:322-329) is not modelled. It cannot be reached, because `success` is the constant `true`.
- Concurrency is not modelled. The Go maps are unsynchronised globals, and the model serves requests one at a time.
- The source keeps `*Order` and `*Cart` pointers in its maps and updates an order through its pointer. The model replaces the map entry with the updated record instead. No two keys share a record, so the maps hold the same values either way. The response sharing the pointer with the map is not modelled.
- `Handlers.Store.ListOrders`: the source hands the map itself to the JSON encoder, or an empty array when the map is empty. The model returns the map's orders as a sequence in no particular order, with the keys only as a ghost sequence beside it, so the keyed JSON object and the exact shape of the response are left out.
- No handler reads a cart on its own, so there is no separate cart lookup. The payment handler's lookup is part of `ProcessPayment`.
