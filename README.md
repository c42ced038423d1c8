# python-ddd-sample in Dafny

This project models the domain layer of python-ddd-sample, a small domain-driven design
example of an ordering system, together with the in-memory infrastructure and the
application service that sit on top of it. Properties of that behaviour are proved about
the model.

- **Value objects, as datatypes and pure functions.**
  - `Money` (module `Monetary`): a validated amount in a three-letter currency. Its
    arithmetic and comparisons refuse to mix currencies, and `format` groups the digits in
    threes.
  - The three identifiers `ProductId`, `OrderId` and `CustomerId` (module `Identifiers`).
    Each refuses empty or all-whitespace text.
  - `Email` (module `Emails`): validated against the pattern `^[^\s@]+@[^\s@]+\.[^\s@]+$`
    and stored lower-cased.
- **Entities, as classes whose methods update their fields in place.**
  - `OrderItem` (module `OrderItems`).
  - The `Order` aggregate root (module `Orders`). Its status machine runs DRAFT → PLACED →
    PAID → SHIPPED → DELIVERED, and CANCELLED can be reached from DRAFT, PLACED or PAID.
    Its lines can be edited only in DRAFT, with at most 100 of them, merged by product, and
    the total is recalculated after every edit.
  - `Customer` (module `Customers`): a status machine with a loyalty-point balance.
  - `AggregateRoot` (module `AggregateRoots`): the domain-event buffer.
- **The pricing service** (module `Pricing`): the tiered loyalty discount, the shipping fee
  and the final amount.
- **The order events** (module `OrderEvents`): a datatype with their names and data fields.
- **Infrastructure.**
  - `InMemoryOrderRepository` (module `OrderStore`): a map from the text of an order id to
    the order's state.
  - `InMemoryEventBus` (module `EventBuses`): per-type handler lists, synchronous
    publication and an event history.
- **`OrderApplicationService`** (module `OrderApplication`): the use cases create, place,
  summarise and cancel, read as synchronous methods over the repository.

Each imperative method of a class is proved against a value-level specification function:
- `Order.AddItem` against `Orders.AddItemTo`;
- `InMemoryEventBus.PublishSync` against `HandlersFor` and `Failing`.

The properties that the code promises are then proved as lemmas about those functions.
Examples: every edit keeps the aggregate's invariant, the total is the sum of the line
subtotals, `format` without its commas is the decimal numeral, and `create_order` saves
one line per distinct product with the summed total.

Decisions that the code leaves open:
- **Non-yen prices.** `add_item` with a price in another currency is modelled as the code
  does it. The line is appended, and then the recalculation raises a currency mismatch,
  so the old total stays (`Orders.ForeignPriceLeavesLine`). The aggregate invariant
  therefore only promises the recalculated total while every line is in yen.
- **A trailing line feed in an email.** The `$` of Python's `re` also matches before one
  trailing line feed, so `"a@b.co\n"` is accepted. The line feed stays in the stored value
  and in its domain (`Emails.TrailingNewlineAccepted`).
- **Float rates.** `Money.multiply` with a float multiplier is modelled as a rational
  multiplier `num/den`, truncated toward zero. The multiplier is never negative, so
  truncation is floor division here. The pricing rates are whole percentages, so a
  discount is `floor(total * pct / 100)`.
- **The 30% cap never binds.** The comments in `calculate_discount`
  (`domain/service/pricing_service.py:31-43`) ask for a cap at 30%, and line 51 applies it.
  The coded tiers add up to at most 12%, so the cap never applies (`Pricing.CapNeverApplies`).
- **Clock and id generation.** The clock (`datetime.now()`) and uuid generation are
  parameters: `at: Timestamp` and `newId: OrderId`.
- **What the repository stores.** The repository stores the order's state as a value.
  The service places and cancels through the value-level transitions, and the `Order`
  class methods are proved to agree with those same transitions.

## Model

| member | source | states |
|---|---|---|
| Text.LowerIdempotent | python-ddd-sample/domain/customer/email.py:21 | lower-casing a stored address again changes nothing |
| Text.SplitAtOnlySeparator | python-ddd-sample/domain/customer/email.py:28-36 | with exactly one separator, `split` yields the text before it and the text after it |
| Monetary.New | python-ddd-sample/domain/shared/money.py:16-22 | construction succeeds iff amount ≥ 0 and the currency has 3 characters; the amount is checked first, and each failure has its own error |
| Monetary.Zero | python-ddd-sample/domain/shared/money.py:24-27 | a zero amount in the given currency, which fails only for a currency that does not have 3 characters |
| Monetary.FromYen | python-ddd-sample/domain/shared/money.py:29-32 | succeeds iff amount ≥ 0, and is then that amount in JPY |
| Monetary.ZeroIsIdentity | python-ddd-sample/domain/shared/money.py:73-75 | `is_zero` holds exactly for what `Money.zero` builds in the same currency, and such an amount is the identity of addition |
| Monetary.ZeroDefaultIsYen | python-ddd-sample/domain/shared/money.py:24-27 | `Money.zero()` is 0 JPY and `is_zero` holds for it |
| Monetary.SameCurrency | python-ddd-sample/domain/shared/money.py:83-86 | passes iff the currencies are equal, and otherwise reports both currencies |
| Monetary.Add | python-ddd-sample/domain/shared/money.py:34-37 | succeeds iff the currencies match, and then gives the sum in that currency; a mismatch is reported |
| Monetary.Subtract | python-ddd-sample/domain/shared/money.py:39-45 | the currency is checked first, then a negative result is refused; on success the result is the difference |
| Monetary.Multiply | python-ddd-sample/domain/shared/money.py:47-51 | a negative multiplier is refused; otherwise the amount is amount·multiplier truncated, in the same currency |
| Monetary.MultiplyWhole | python-ddd-sample/domain/shared/money.py:47-51 | with a natural multiplier k the result is exactly amount·k |
| Monetary.GreaterThan | python-ddd-sample/domain/shared/money.py:53-56 | defined iff the currencies match, and then agrees with `>` on the amounts |
| Monetary.LessThan | python-ddd-sample/domain/shared/money.py:58-61 | defined iff the currencies match, and then agrees with `<` on the amounts |
| Monetary.GreaterThanOrEqual | python-ddd-sample/domain/shared/money.py:63-66 | defined iff the currencies match, and then agrees with `>=` on the amounts |
| Monetary.LessThanOrEqual | python-ddd-sample/domain/shared/money.py:68-71 | defined iff the currencies match, and then agrees with `<=` on the amounts |
| Monetary.ComparisonsAgree | python-ddd-sample/domain/shared/money.py:53-71 | `>=` is the negation of `<`, `<=` the negation of `>`, `<` is `>` with the operands swapped, and neither-less-nor-greater is equality |
| Monetary.DecimalDenotes | python-ddd-sample/domain/shared/money.py:80 | the digit string used by `format` denotes the amount |
| Monetary.GroupedWithoutCommas | python-ddd-sample/domain/shared/money.py:80 | removing the commas from the grouped numeral gives the plain decimal numeral |
| Monetary.GroupedShape | python-ddd-sample/domain/shared/money.py:80 | in the grouped numeral commas stand exactly every fourth position from the end, with digits everywhere else |
| Monetary.Format | python-ddd-sample/domain/shared/money.py:77-81 | JPY gives "¥" and the grouped amount, any other currency gives the code, a space and the grouped amount; without commas the rest is the decimal numeral of the amount, and the commas split it into groups of three digits counted from the right, the first group holding one to three |
| Monetary.FormatExamples | python-ddd-sample/domain/shared/money.py:77-81 | 1000 JPY formats as "¥1,000" and 1000 USD as "USD 1,000" |
| Monetary.GroupedThousand | python-ddd-sample/domain/shared/money.py:80 | 1000 is grouped as "1,000" |
| Identifiers.NewProductId | python-ddd-sample/domain/order/product_id.py:13-18 | succeeds iff the value is not empty or all-whitespace; the value is kept verbatim and `__str__` returns it |
| Identifiers.NewOrderId | python-ddd-sample/domain/order/order_id.py:14-16 | succeeds iff the value is not blank; the value is kept verbatim and `__str__` returns it |
| Identifiers.NewCustomerId | python-ddd-sample/domain/customer/customer_id.py:15-18 | succeeds iff the value is not blank; the value is kept verbatim and `__str__` returns it |
| Identifiers.IdsEqualByValue | python-ddd-sample/domain/order/product_id.py:7-11 | two ids built from valid strings are equal iff the strings are equal |
| Identifiers.NotTrimmed | python-ddd-sample/domain/order/product_id.py:13-15 | surrounding spaces are kept, and empty or space-only values are refused |
| Emails.AcceptsIsRegex | python-ddd-sample/domain/customer/email.py:23-26 | the checked address shape (no whitespace, one '@' after a non-empty local part, a dot with text on both sides of the domain, an optional final line feed) holds iff the pattern matches |
| Emails.NewEmail | python-ddd-sample/domain/customer/email.py:15-21 | construction succeeds iff the pattern matches, and stores the lower-cased input; a refusal reports the input |
| Emails.Email.LocalPart | python-ddd-sample/domain/customer/email.py:33-36 | the text before the one '@' |
| Emails.Email.Domain | python-ddd-sample/domain/customer/email.py:28-31 | the text after the one '@' |
| Emails.Email.ToString | python-ddd-sample/domain/customer/email.py:38-39 | `__str__` returns the stored, lower-cased value, from which `Email(...)` builds the same address again |
| Emails.PartsRejoin | python-ddd-sample/domain/customer/email.py:28-36 | local part + "@" + domain is the stored address, and neither part contains '@' |
| Emails.EqualIgnoringCase | python-ddd-sample/domain/customer/email.py:21 | addresses that differ only in letter case build equal Emails |
| Emails.TrailingNewlineAccepted | python-ddd-sample/domain/customer/email.py:25-26 | "a@b.co\n" is accepted, keeping the line feed in the value and in the domain |
| Emails.CapitalsAreLowered | python-ddd-sample/domain/customer/email.py:21 | "A@B.CO" is stored as "a@b.co" |
| Emails.MalformedRefused | python-ddd-sample/domain/customer/email.py:25 | a domain without a dot, two '@' and a space are refused |
| Customers.StatusNamesDistinct | python-ddd-sample/domain/customer/customer.py:11-15 | two customer statuses have the same `.value` iff they are the same status |
| Customers.StatusName | python-ddd-sample/domain/customer/customer.py:11-15 | the enum's `.value` strings "ACTIVE", "INACTIVE", "SUSPENDED"; distinct per status by `Customers.StatusNamesDistinct` |
| Customers.Customer.constructor | python-ddd-sample/domain/customer/customer.py:21-34 | a new customer is ACTIVE with 0 points and the given id, name and email |
| Customers.Customer.Deactivate | python-ddd-sample/domain/customer/customer.py:49-51 | the status becomes INACTIVE from any status |
| Customers.Customer.ChangeEmail | python-ddd-sample/domain/customer/customer.py:53-61 | the current address is a no-op even when SUSPENDED; otherwise a SUSPENDED customer is refused and keeps the address, and any other customer gets the new one |
| Customers.Customer.ChangeName | python-ddd-sample/domain/customer/customer.py:63-67 | a blank name is refused and the name is kept; otherwise the name is stored as given |
| Customers.Customer.AddLoyaltyPoints | python-ddd-sample/domain/customer/customer.py:69-77 | points ≤ 0 are refused first, then a customer who is not ACTIVE; on success the balance rises by exactly the points, and on refusal it is unchanged |
| Customers.Customer.UseLoyaltyPoints | python-ddd-sample/domain/customer/customer.py:79-87 | points ≤ 0 or more than the balance are refused, whatever the status; otherwise the points are subtracted; the balance never goes negative |
| Customers.Customer.Suspend | python-ddd-sample/domain/customer/customer.py:89-93 | the status is SUSPENDED afterwards, whether or not it already was |
| Customers.Customer.Activate | python-ddd-sample/domain/customer/customer.py:95-99 | the status is ACTIVE afterwards, whether or not it already was |
| Customers.Customer.IsActive | python-ddd-sample/domain/customer/customer.py:121-123 | holds iff the status is ACTIVE |
| Customers.Customer.SameAs | python-ddd-sample/domain/customer/customer.py:125-129 | customers are equal iff their ids are |
| OrderItems.Subtotal | python-ddd-sample/domain/order/order_item.py:34-36 | unit price amount × quantity, in the unit price's currency |
| OrderItems.OrderItem.constructor | python-ddd-sample/domain/order/order_item.py:12-26 | stores the product, the quantity and the price, with the quantity at least 1 |
| OrderItems.OrderItem.Create | python-ddd-sample/domain/order/order_item.py:12-26 | succeeds iff quantity > 0, and then yields a fresh item holding exactly the given product, quantity and price |
| OrderItems.OrderItem.AsLine | python-ddd-sample/domain/order/order_item.py:42-52 | the item's product id, quantity and unit price |
| OrderItems.OrderItem.ChangeQuantity | python-ddd-sample/domain/order/order_item.py:28-32 | a value ≤ 0 is refused and the quantity kept; otherwise the quantity becomes exactly the value; product and price are constants |
| OrderItems.OrderItem.GetSubtotal | python-ddd-sample/domain/order/order_item.py:34-36 | unit price amount × quantity, in the price's currency |
| OrderItems.OrderItem.HasProduct | python-ddd-sample/domain/order/order_item.py:38-40 | holds iff the stored product id equals the argument |
| Orders.StatusName | python-ddd-sample/domain/order/order.py:15-22 | the enum's `.value` strings; distinct per status by `Orders.StatusNamesDistinct` |
| Orders.StatusNamesDistinct | python-ddd-sample/domain/order/order.py:15-22 | two statuses have the same name iff they are the same status |
| Orders.PlaceStatus | python-ddd-sample/domain/order/order.py:96-105 | place succeeds iff the status is DRAFT and there is an item, giving PLACED; the status is checked before emptiness |
| Orders.PayStatus | python-ddd-sample/domain/order/order.py:107-112 | pay succeeds iff PLACED, giving PAID |
| Orders.ShipStatus | python-ddd-sample/domain/order/order.py:114-119 | ship succeeds iff PAID, giving SHIPPED |
| Orders.DeliverStatus | python-ddd-sample/domain/order/order.py:121-126 | deliver succeeds iff SHIPPED, giving DELIVERED |
| Orders.CancelStatus | python-ddd-sample/domain/order/order.py:128-133 | cancel succeeds iff the status is DRAFT, PLACED or PAID, giving CANCELLED |
| Orders.LinearLifecycle | python-ddd-sample/domain/order/order.py:96-133 | every forward transition advances exactly one step along DRAFT, PLACED, PAID, SHIPPED, DELIVERED; DELIVERED and CANCELLED admit no transition |
| Orders.FindLine | python-ddd-sample/domain/order/order.py:142-147 | the first line holding the product, or none iff no line holds it |
| Orders.AddLine | python-ddd-sample/domain/order/order.py:61-70 | an order with 100 lines refuses with the cap error before anything else; otherwise the only errors are the cap and a bad quantity; success leaves at most 100 lines, either as many as before or the old ones plus the new line last, and a line holds the product |
| Orders.RemoveLine | python-ddd-sample/domain/order/order.py:78-82 | succeeds iff some line holds the product, and then one line fewer is left; the only error is not-found |
| Orders.ChangeLineQuantity | python-ddd-sample/domain/order/order.py:89-93 | succeeds iff some line holds the product and the new quantity is positive; a missing product is reported as not-found, before the quantity is looked at; success keeps the number of lines |
| Orders.AddLineMerges | python-ddd-sample/domain/order/order.py:65-67 | adding a product already present adds the quantity to that line, keeps its first unit price and adds no line |
| Orders.AddLineAppends | python-ddd-sample/domain/order/order.py:68-70 | a new product is appended as a last line with the given price |
| Orders.FullOrderRefusesMerge | python-ddd-sample/domain/order/order.py:61-62 | at 100 lines every addition is refused, even one that would only merge |
| Orders.AddLineKeepsShape | python-ddd-sample/domain/order/order.py:59-72 | a successful add keeps one line per product, quantities ≥ 1 and at most 100 lines, and the product set gains the product |
| Orders.RemoveLineKeepsShape | python-ddd-sample/domain/order/order.py:74-83 | a successful removal keeps the shape, drops exactly one line and leaves the product absent |
| Orders.ChangeLineKeepsShape | python-ddd-sample/domain/order/order.py:85-94 | a successful change keeps the shape and the product's line has exactly the new quantity |
| Orders.DistinctCount | python-ddd-sample/domain/order/order.py:181-183 | with one line per product, `item_count` equals the number of distinct products |
| Orders.TotalIsSumOfSubtotals | python-ddd-sample/domain/order/order.py:149-154 | the recalculated total exists iff every line is priced in yen, and is then the sum of the line subtotals in JPY |
| Orders.ForeignLineMismatch | python-ddd-sample/domain/order/order.py:151-153 | a line in another currency makes the running total raise a mismatch between JPY and a currency that occurs in the lines |
| Orders.AddLineSum | python-ddd-sample/domain/order/order.py:59-72 | a successful add raises the sum of subtotals by the added quantity times the price the line keeps |
| Orders.MergeSum | python-ddd-sample/domain/order/order.py:65-67 | raising line k's quantity by q raises the sum by q times its unit price |
| Orders.EditOrder | python-ddd-sample/domain/order/order.py:149-159 | refused with nothing changed outside DRAFT; succeeds iff DRAFT, the line change succeeds and the recalculation succeeds, and then holds the new lines and their total; never moves the id, customer, status or placed_at |
| Orders.AddItemTo | python-ddd-sample/domain/order/order.py:50-72 | not-modifiable outside DRAFT and the cap error on a full DRAFT order, both with nothing changed; on success a line holds the product |
| Orders.RemoveItemFrom | python-ddd-sample/domain/order/order.py:74-83 | not-modifiable outside DRAFT; not-found with nothing changed when no line holds the product; on success one line fewer |
| Orders.ChangeItemQuantityIn | python-ddd-sample/domain/order/order.py:85-94 | not-modifiable outside DRAFT; a quantity ≤ 0 raises and changes nothing; on success the number of lines is kept |
| Orders.MoveTo | python-ddd-sample/domain/order/order.py:107-133 | a status change passes iff the new status is allowed, then only the status moves; a refusal reports its error and changes nothing |
| Orders.PlaceOrder | python-ddd-sample/domain/order/order.py:96-105 | succeeds iff DRAFT with an item, and then only the status (PLACED) and placed_at (the given time) change; not-DRAFT is reported before emptiness, and a refusal changes nothing |
| Orders.MarkOrderPaid | python-ddd-sample/domain/order/order.py:107-112 | succeeds iff PLACED, and then only the status moves, to PAID; otherwise the pay error with nothing changed |
| Orders.ShipOrder | python-ddd-sample/domain/order/order.py:114-119 | succeeds iff PAID, and then only the status moves, to SHIPPED; otherwise the ship error with nothing changed |
| Orders.DeliverOrder | python-ddd-sample/domain/order/order.py:121-126 | succeeds iff SHIPPED, and then only the status moves, to DELIVERED; otherwise the deliver error with nothing changed |
| Orders.CancelOrder | python-ddd-sample/domain/order/order.py:128-133 | succeeds iff DRAFT, PLACED or PAID, and then only the status moves, to CANCELLED; otherwise the cancel error with nothing changed |
| Orders.NewOrder | python-ddd-sample/domain/order/order.py:30-43 | a new order is DRAFT, without lines, with total `Money.zero()` and no placed_at, and satisfies the invariant |
| Orders.AddItemKeepsInvariant | python-ddd-sample/domain/order/order.py:50-72 | `add_item` keeps the aggregate invariant whether it succeeds or raises |
| Orders.RemoveItemKeepsInvariant | python-ddd-sample/domain/order/order.py:74-83 | `remove_item` keeps the invariant |
| Orders.ChangeItemQuantityKeepsInvariant | python-ddd-sample/domain/order/order.py:85-94 | `change_item_quantity` keeps the invariant |
| Orders.StatusChangesKeepInvariant | python-ddd-sample/domain/order/order.py:96-133 | place, pay, ship, deliver and cancel each keep the invariant |
| Orders.MoveKeepsInvariant | python-ddd-sample/domain/order/order.py:107-133 | a status change that never returns to DRAFT, and that leaves DRAFT or CANCELLED only to cancel, keeps the invariant |
| Orders.PlaceKeepsInvariant | python-ddd-sample/domain/order/order.py:96-105 | placing keeps the invariant |
| Orders.SuccessfulEditTotal | python-ddd-sample/domain/order/order.py:149-154 | after a successful edit the total is the sum of the line subtotals in JPY |
| Orders.NonDraftRefusesEdits | python-ddd-sample/domain/order/order.py:156-159 | outside DRAFT every item edit raises and leaves the order unchanged |
| Orders.FailedEditChangesNothing | python-ddd-sample/domain/order/order.py:59-94 | an edit that raises for any reason other than a currency clash leaves the order unchanged |
| Orders.ForeignPriceLeavesLine | python-ddd-sample/domain/order/order.py:69-72 | a non-yen price is still appended, and the add then raises a JPY mismatch with the total unchanged |
| Orders.ExampleScenario | python-ddd-sample/domain/order/order.py:50-105 | two adds of one product at ¥1,000 merge into quantity 5 with total ¥5,000; placing sets placed_at, cancelling then succeeds, and placing again is refused with nothing changed |
| Orders.ItemViews | python-ddd-sample/domain/order/order.py:185-198 | one snapshot per line, with its product, quantity, price and subtotal |
| Orders.Order.Snapshot | python-ddd-sample/domain/order/order.py:161-183 | the id, customer, lines, status, total and placed_at of the live order |
| Orders.Order.constructor | python-ddd-sample/domain/order/order.py:30-43 | the new order's state is that of a new order value |
| Orders.Order.ItemCount | python-ddd-sample/domain/order/order.py:181-183 | the number of items |
| Orders.Order.GetItems | python-ddd-sample/domain/order/order.py:185-198 | snapshots of the current lines, not the live items |
| Orders.Order.SameAs | python-ddd-sample/domain/order/order.py:200-204 | orders are equal iff their ids are equal |
| Orders.Order.FindItemIndex | python-ddd-sample/domain/order/order.py:142-147 | the loop returns the index of the first line with the product, or none |
| Orders.Order.FindItem | python-ddd-sample/domain/order/order.py:135-140 | the loop returns the live item at that first index, or none |
| Orders.Order.RecalculateTotal | python-ddd-sample/domain/order/order.py:149-154 | the running-total loop stores the total when every line is in yen, and otherwise raises the mismatch and leaves the state unchanged |
| Orders.Order.AddItem | python-ddd-sample/domain/order/order.py:50-72 | the outcome and new state are those of `AddItemTo`: refused outside DRAFT, cap first, then merge or append, then recalculation; the invariant is kept |
| Orders.Order.RemoveItem | python-ddd-sample/domain/order/order.py:74-83 | the outcome and new state are those of `RemoveItemFrom`, and the invariant is kept |
| Orders.Order.ChangeItemQuantity | python-ddd-sample/domain/order/order.py:85-94 | the outcome and new state are those of `ChangeItemQuantityIn`, and the invariant is kept |
| Orders.Order.Place | python-ddd-sample/domain/order/order.py:96-105 | the outcome and new state are those of `PlaceOrder`: PLACED with placed_at set to the given time |
| Orders.Order.MarkAsPaid | python-ddd-sample/domain/order/order.py:107-112 | only the status moves, as `PayStatus` decides |
| Orders.Order.Ship | python-ddd-sample/domain/order/order.py:114-119 | only the status moves, as `ShipStatus` decides |
| Orders.Order.Deliver | python-ddd-sample/domain/order/order.py:121-126 | only the status moves, as `DeliverStatus` decides |
| Orders.Order.Cancel | python-ddd-sample/domain/order/order.py:128-133 | only the status moves, as `CancelStatus` decides |
| Pricing.LoyaltyPercent | python-ddd-sample/domain/service/pricing_service.py:44-48 | 10% iff ≥ 2000 points, 0% iff < 1000 points, else 5% |
| Pricing.DiscountPercent | python-ddd-sample/domain/service/pricing_service.py:44-52 | the loyalty tier plus 2 points from ¥10,000; the comparison raises for a non-yen total |
| Pricing.CapNeverApplies | python-ddd-sample/domain/service/pricing_service.py:51-52 | the rate never exceeds 12%, below the 30% cap |
| Pricing.RateMonotoneInPoints | python-ddd-sample/domain/service/pricing_service.py:44-50 | more points never lower the rate |
| Pricing.CalculateDiscount | python-ddd-sample/domain/service/pricing_service.py:25-54 | an inactive customer gets `Money.zero()`; an active one gets a discount of at most 12% of the total, in its currency |
| Pricing.DiscountIsRateOfTotal | python-ddd-sample/domain/service/pricing_service.py:54 | the discount is the total times the rate, rounded down, and never exceeds the total |
| Pricing.CalculateShippingFee | python-ddd-sample/domain/service/pricing_service.py:66-72 | free from ¥5,000, ¥500 below, and raises for a non-yen total |
| Pricing.CalculateFinalAmount | python-ddd-sample/domain/service/pricing_service.py:74-89 | the final amount exists iff the total is in yen; the discount never exceeds the total, so the subtraction never raises, and the result is total − discount + shipping in JPY |
| Pricing.PricingExamples | python-ddd-sample/tests/test_pricing_service_discount.py:21-148 | the tests' figures: inactive 0; 5% and 10% of ¥5,000; 7% of ¥12,000; 12% of ¥100,000 and of ¥150,000; and the final amounts of `tests/test_pricing_service.py:62-109`, including ¥10,000 with no points giving ¥9,800 |
| OrderEvents.Kind | python-ddd-sample/domain/order/order_events.py:11-93 | the event's class; `OrderEvents.EventNamesIdentifyKinds` ties it to the name |
| OrderEvents.EventName | python-ddd-sample/domain/order/order_events.py:17-93 | each class's `event_name()` constant; distinct per class by `OrderEvents.EventNamesIdentifyKinds` |
| OrderEvents.EventNamesIdentifyKinds | python-ddd-sample/domain/order/order_events.py:17-93 | two events have the same name iff they are of the same class |
| OrderEvents.EventData | python-ddd-sample/domain/order/order_events.py:20-99 | each event's data has exactly its class's keys, carrying its fields unchanged |
| AggregateRoots.AggregateRoot.constructor | python-ddd-sample/domain/shared/aggregate_root.py:17-19 | a fresh root has no events |
| AggregateRoots.AggregateRoot.AddDomainEvent | python-ddd-sample/domain/shared/aggregate_root.py:21-28 | the event goes last, and the earlier events keep their order |
| AggregateRoots.AggregateRoot.GetDomainEvents | python-ddd-sample/domain/shared/aggregate_root.py:30-37 | the buffer's events, in order, without changing it |
| AggregateRoots.AggregateRoot.ClearDomainEvents | python-ddd-sample/domain/shared/aggregate_root.py:39-45 | the buffer becomes empty |
| AggregateRoots.AggregateRoot.PullDomainEvents | python-ddd-sample/domain/shared/aggregate_root.py:47-56 | returns the earlier events and leaves the buffer empty, so a second pull right after returns nothing |
| OrderStore.InMemoryOrderRepository.constructor | python-ddd-sample/infrastructure/in_memory_order_repository.py:15-16 | the repository starts empty |
| OrderStore.InMemoryOrderRepository.Save | python-ddd-sample/infrastructure/in_memory_order_repository.py:18-20 | the order is stored under its id, replacing what was there; the size grows only for a new id |
| OrderStore.InMemoryOrderRepository.FindById | python-ddd-sample/infrastructure/in_memory_order_repository.py:22-24 | the stored order iff its id is present, otherwise none |
| OrderStore.InMemoryOrderRepository.FindByCustomerId | python-ddd-sample/infrastructure/in_memory_order_repository.py:26-32 | the loop returns exactly the stored orders of that customer, each once |
| OrderStore.GatheredEverything | python-ddd-sample/infrastructure/in_memory_order_repository.py:29-32 | once every entry is visited, the gathered list holds exactly the customer's orders, without repeats |
| OrderStore.InMemoryOrderRepository.Delete | python-ddd-sample/infrastructure/in_memory_order_repository.py:34-38 | removes the id if present, reducing size by 1, and is a no-op otherwise; other entries stay |
| OrderStore.InMemoryOrderRepository.Clear | python-ddd-sample/infrastructure/in_memory_order_repository.py:40-42 | the repository becomes empty |
| OrderStore.InMemoryOrderRepository.Size | python-ddd-sample/infrastructure/in_memory_order_repository.py:44-46 | the number of stored ids |
| EventBuses.RemoveFirst | python-ddd-sample/infrastructure/event_bus.py:50-51 | a list without the handler is unchanged, and otherwise loses one element |
| EventBuses.RemoveFirstCutsFirstOccurrence | python-ddd-sample/infrastructure/event_bus.py:51 | `list.remove` cuts out exactly the first occurrence, and the rest keep their order |
| EventBuses.RemoveFirstTakesOneCopy | python-ddd-sample/infrastructure/event_bus.py:51 | removal takes exactly one copy of the handler out of the multiset |
| EventBuses.UnsubscribeUndoesSubscribe | python-ddd-sample/infrastructure/event_bus.py:31-52 | subscribing a new handler and unsubscribing it restores the list |
| EventBuses.Failing | python-ddd-sample/infrastructure/event_bus.py:97-104 | the failures are exactly the invoked handlers that raise |
| EventBuses.NoneFailing | python-ddd-sample/infrastructure/event_bus.py:97-104 | when no handler raises there are no failures |
| EventBuses.OneFailureIsolated | python-ddd-sample/infrastructure/event_bus.py:97-104 | when one handler raises, it alone is reported and the others still run |
| EventBuses.InMemoryEventBus.constructor | python-ddd-sample/infrastructure/event_bus.py:20-29 | no handlers and an empty history |
| EventBuses.InMemoryEventBus.HandlersFor | python-ddd-sample/infrastructure/event_bus.py:92 | the type's list, or empty when it has none |
| EventBuses.InMemoryEventBus.Subscribe | python-ddd-sample/infrastructure/event_bus.py:31-40 | the handler goes last in its type's list, duplicates included; other lists are unchanged |
| EventBuses.InMemoryEventBus.Unsubscribe | python-ddd-sample/infrastructure/event_bus.py:42-52 | removes the first occurrence if present, and is a no-op on the list otherwise; other lists are unchanged |
| EventBuses.InMemoryEventBus.PublishSync | python-ddd-sample/infrastructure/event_bus.py:80-104 | appends the event to the history once, invokes exactly its type's handlers in order, and reports the raising ones without stopping |
| EventBuses.InMemoryEventBus.GetEventHistory | python-ddd-sample/infrastructure/event_bus.py:145-152 | the history, in order, unchanged |
| EventBuses.InMemoryEventBus.ClearHistory | python-ddd-sample/infrastructure/event_bus.py:154-156 | the history becomes empty |
| EventBuses.InMemoryEventBus.GetHandlerCount | python-ddd-sample/infrastructure/event_bus.py:158-168 | the length of the type's list, 0 when it has none |
| OrderApplication.AddCommand | python-ddd-sample/application/order_application_service.py:57-61 | a blank product id raises first, then a negative price; success keeps the id, customer, status and placed_at and leaves a line holding the product |
| OrderApplication.AddAll | python-ddd-sample/application/order_application_service.py:57-61 | a successful loop keeps the order's id, customer, status and placed_at |
| OrderApplication.BuiltOrder | python-ddd-sample/application/order_application_service.py:53-61 | a blank customer id raises; success is a DRAFT, unplaced order with the new id and the given customer; no items give no lines |
| OrderApplication.AddAllStopsAtError | python-ddd-sample/application/order_application_service.py:57-61 | once an item raises, later items are not looked at |
| OrderApplication.AddAllBuilds | python-ddd-sample/application/order_application_service.py:53-61 | items added to a new order leave a DRAFT order with one line per named product and, with consistent prices, the summed total |
| OrderApplication.BuildStep | python-ddd-sample/application/order_application_service.py:57-61 | one more successful item keeps what the loop has built |
| OrderApplication.ValidItemsAreAccepted | python-ddd-sample/application/order_application_service.py:57-61 | at most 100 items with non-blank ids, quantities ≥ 1 and prices ≥ 0 never make creation raise |
| OrderApplication.ValidCommandAccepted | python-ddd-sample/application/order_application_service.py:57-61 | a valid item on an order with room succeeds and adds at most one line |
| OrderApplication.CreatedOrderFacts | python-ddd-sample/application/order_application_service.py:42-66 | the created order is DRAFT, not placed, has the new id and the customer, has one line per distinct product and, with consistent prices, total Σ quantity × price |
| OrderApplication.Fetch | python-ddd-sample/application/order_application_service.py:76-80 | finds the order iff the id is not blank and stored, and returns the stored order; a blank id raises the id error, an unknown one not-found |
| OrderApplication.PlaceStored | python-ddd-sample/application/order_application_service.py:68-86 | a failure leaves the orders unchanged; success iff the id is stored and names a non-empty DRAFT order; a stored order past DRAFT is refused with the not-DRAFT error |
| OrderApplication.CancelStored | python-ddd-sample/application/order_application_service.py:119-135 | a failure leaves the orders unchanged; success iff the id is stored and names a DRAFT, PLACED or PAID order; the other statuses are refused with the cancel error |
| OrderApplication.PlaceStoredFacts | python-ddd-sample/application/order_application_service.py:68-86 | an unknown id raises not-found and changes nothing; success iff a non-empty DRAFT, which is then stored PLACED with placed_at set and nothing else moved |
| OrderApplication.CancelStoredFacts | python-ddd-sample/application/order_application_service.py:119-135 | an unknown id raises not-found and changes nothing; success iff DRAFT, PLACED or PAID, and then only that order's status changes |
| OrderApplication.AddCommandToOrder | python-ddd-sample/application/order_application_service.py:58-61 | one loop pass on the live order agrees with `AddCommand` |
| OrderApplication.AddItemsToOrder | python-ddd-sample/application/order_application_service.py:57-61 | the loop on the live order agrees with `AddAll`, stopping at the first item that raises |
| OrderApplication.OrderApplicationService.constructor | python-ddd-sample/application/order_application_service.py:34-40 | keeps the given repository |
| OrderApplication.OrderApplicationService.CreateOrder | python-ddd-sample/application/order_application_service.py:42-66 | on error the repository is unchanged; otherwise exactly the built order is saved under the new id and that id is returned |
| OrderApplication.OrderApplicationService.PlaceOrder | python-ddd-sample/application/order_application_service.py:68-86 | the outcome and the repository afterwards are those of `PlaceStored` |
| OrderApplication.OrderApplicationService.GetOrderSummary | python-ddd-sample/application/order_application_service.py:94-117 | none iff the id is unknown; otherwise the id, customer id, status name, formatted total, number of distinct products, item snapshots and placed_at |
| OrderApplication.OrderApplicationService.CancelOrder | python-ddd-sample/application/order_application_service.py:119-135 | the outcome and the repository afterwards are those of `CancelStored` |

## Left out

- Asynchronous publication (`publish`, `_handle_event_async` in `infrastructure/event_bus.py`).
  It exists only for concurrency. Every other `async def` is modelled as an ordinary
  synchronous method.
- Console output and `_handle_error` logging in the event bus. They only print.
- What a handler's `handle` does. `PublishSync` takes a `fails` predicate that says which
  handlers raise on the event, and reports those handlers. Handler class names, which
  appear only in printed messages, are not modelled.
- `to_dict` and `isoformat` serialisation of events, and the generated defaults of
  `event_id` and `occurred_at`. The caller supplies these as an `EventMeta` value. In the
  order summary, `placed_at` is the `Timestamp` itself, not its ISO text.
- `OrderId.generate`, `CustomerId.generate`, `Order.create` and `Customer.create` with its
  defaults. They draw uuids. `CreateOrder` takes the new order id as a parameter.
- `datetime.now()` in `place`: the time is a parameter.
- Floating point:
  - `Money.multiply` takes a rational multiplier `num/den`;
  - the discount rates are whole percentages;
  - results where IEEE rounding of `amount * 0.07` would truncate differently are not
    modelled.
- Unicode. `\s` and `str.isspace` are the ASCII whitespace characters. `str.lower` lowers
  only the ASCII letters. The currency length counts characters as Python does.
- Object aliasing in the repository, which stores live references. The repository holds each
  order's state as a value. `place_order` and `cancel_order` apply the value-level
  transitions that `Order.Place` and `Order.Cancel` are proved to agree with, rather than
  mutating a shared `Order` object.
- The order of `find_by_customer_id`'s result follows dict iteration order. The model states
  which orders are returned, each once, but not their order.
- PricingService is stateless. Its operations take what they read (`is_active`, the loyalty
  points, the order total) instead of the `Customer` and `Order` objects.
- The service's `pricing_service` constructor parameter is stored but never used, so the
  model leaves it out.
- `PlaceOrderCommand` is a wrapper around the id text. `PlaceOrder` takes the text directly.
- The abstract interfaces `application/event_handler.py` and `domain/order/order_repository.py`
  are not modelled. They have no behaviour.
- The demonstration handlers under `application/handlers/` are not modelled. They print and
  call injected external services.
- Tests that call API absent from the code are not modelled: `Order.pull_domain_events`,
  `cancel(reason)`, and an `InMemoryOrderRepository` taking an event bus. `Order` does not
  extend `AggregateRoot`, and the model keeps it that way.
