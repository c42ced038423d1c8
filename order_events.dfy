/** The domain events of the Order aggregate: immutable records of what happened. */
module OrderEvents {
  import opened Orders

  /** The fields every DomainEvent has: a unique id, the time it happened and the id of the
      aggregate that raised it. The id and the time are supplied by the caller. */
  datatype EventMeta = EventMeta(eventId: string, occurredAt: Timestamp, aggregateId: string)

  /** The values that occur in an event's data dictionary. */
  datatype EventValue =
    | Text(text: string)
    | Number(number: int)
    | Instant(instant: Timestamp)
    | Records(records: seq<map<string, EventValue>>)

  /** The five event classes; the event bus keys its handlers by these. */
  datatype EventKind =
    | OrderCreatedEvent
    | OrderItemAddedEvent
    | OrderPlacedEvent
    | OrderCancelledEvent
    | OrderShippedEvent

  datatype DomainEvent =
    | OrderCreated(meta: EventMeta, customerId: string)
    | OrderItemAdded(meta: EventMeta, productId: string, quantity: int, unitPrice: int)
    | OrderPlaced(meta: EventMeta, customerId: string, totalAmount: int,
                  items: seq<map<string, EventValue>>, placedAt: Timestamp)
    | OrderCancelled(meta: EventMeta, customerId: string, reason: string, cancelledAt: Timestamp)
    | OrderShipped(meta: EventMeta, trackingNumber: string, shippedAt: Timestamp)

  /** `type(event)`. */
  function Kind(e: DomainEvent): EventKind {
    match e
    case OrderCreated(_, _) => OrderCreatedEvent
    case OrderItemAdded(_, _, _, _) => OrderItemAddedEvent
    case OrderPlaced(_, _, _, _, _) => OrderPlacedEvent
    case OrderCancelled(_, _, _, _) => OrderCancelledEvent
    case OrderShipped(_, _, _) => OrderShippedEvent
  }

  /** `event_name()`. */
  function EventName(e: DomainEvent): string {
    match e
    case OrderCreated(_, _) => "OrderCreated"
    case OrderItemAdded(_, _, _, _) => "OrderItemAdded"
    case OrderPlaced(_, _, _, _, _) => "OrderPlaced"
    case OrderCancelled(_, _, _, _) => "OrderCancelled"
    case OrderShipped(_, _, _) => "OrderShipped"
  }

  /** The names are distinct constants: two events share a name exactly when they are of the
      same class. */
  lemma EventNamesIdentifyKinds(a: DomainEvent, b: DomainEvent)
    ensures EventName(a) == EventName(b) <==> Kind(a) == Kind(b)
  {
  }

  /** `_get_event_data()`: each class reports exactly its own fields, unchanged; the times
      appear as instants, since their ISO text form is not part of this model. */
  function EventData(e: DomainEvent): (d: map<string, EventValue>)
    ensures e.OrderCreated? ==> d.Keys == {"customer_id"} && d["customer_id"] == Text(e.customerId)
    ensures e.OrderItemAdded? ==> (
      && d.Keys == {"product_id", "quantity", "unit_price"}
      && d["product_id"] == Text(e.productId) && d["quantity"] == Number(e.quantity)
      && d["unit_price"] == Number(e.unitPrice))
    ensures e.OrderPlaced? ==> (
      && d.Keys == {"customer_id", "total_amount", "items", "placed_at"}
      && d["customer_id"] == Text(e.customerId) && d["total_amount"] == Number(e.totalAmount)
      && d["items"] == Records(e.items) && d["placed_at"] == Instant(e.placedAt))
    ensures e.OrderCancelled? ==> (
      && d.Keys == {"customer_id", "reason", "cancelled_at"}
      && d["customer_id"] == Text(e.customerId) && d["reason"] == Text(e.reason)
      && d["cancelled_at"] == Instant(e.cancelledAt))
    ensures e.OrderShipped? ==> (
      && d.Keys == {"tracking_number", "shipped_at"}
      && d["tracking_number"] == Text(e.trackingNumber) && d["shipped_at"] == Instant(e.shippedAt))
  {
    match e
    case OrderCreated(_, c) => map["customer_id" := Text(c)]
    case OrderItemAdded(_, p, q, u) =>
      map["product_id" := Text(p), "quantity" := Number(q), "unit_price" := Number(u)]
    case OrderPlaced(_, c, t, items, at) =>
      map["customer_id" := Text(c), "total_amount" := Number(t), "items" := Records(items), "placed_at" := Instant(at)]
    case OrderCancelled(_, c, reason, at) =>
      map["customer_id" := Text(c), "reason" := Text(reason), "cancelled_at" := Instant(at)]
    case OrderShipped(_, n, at) =>
      map["tracking_number" := Text(n), "shipped_at" := Instant(at)]
  }
}
