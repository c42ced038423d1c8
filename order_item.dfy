/** OrderItem: a child entity of the Order aggregate holding a product, a quantity and a unit price. */
module OrderItems {
  import opened Wrappers
  import opened Monetary
  import opened Identifiers

  /** Every reason an order or one of its items raises. */
  datatype OrderError =
    | NotModifiable          // item edits need a DRAFT order
    | TooManyItems           // the order already holds MaxItems lines
    | InvalidQuantity        // a quantity must be at least 1
    | ItemNotFound
    | PlaceNotDraft          // only a DRAFT order can be placed
    | EmptyOrder             // an order without items cannot be placed
    | PayNotPlaced           // only a PLACED order can be paid
    | ShipNotPaid            // only a PAID order can be shipped
    | DeliverNotShipped      // only a SHIPPED order can be delivered
    | CannotCancel           // SHIPPED, DELIVERED and CANCELLED orders cannot be cancelled
    | MoneyFailure(cause: MoneyError)

  /** The value an OrderItem holds at one moment. */
  datatype Line = Line(productId: ProductId, quantity: int, unitPrice: Money)

  /** `get_subtotal`: the unit price multiplied by the quantity, in the price's currency. */
  function Subtotal(l: Line): (r: Money)
    requires l.quantity >= 1
    ensures r.amount == l.unitPrice.amount * l.quantity && r.currency == l.unitPrice.currency
  {
    MultiplyWhole(l.unitPrice, l.quantity);
    Multiply(l.unitPrice, l.quantity, 1).value
  }

  class OrderItem {
    const productId: ProductId
    const unitPrice: Money
    var quantity: int

    /** The quantity is always at least 1. */
    ghost predicate Valid()
      reads this
    {
      quantity >= 1
    }

    function AsLine(): (l: Line)
      reads this
      ensures l.productId == productId && l.quantity == quantity && l.unitPrice == unitPrice
    {
      Line(productId, quantity, unitPrice)
    }

    constructor (productId: ProductId, quantity: int, unitPrice: Money)
      requires quantity >= 1
      ensures Valid() && AsLine() == Line(productId, quantity, unitPrice)
    {
      this.productId := productId;
      this.quantity := quantity;
      this.unitPrice := unitPrice;
    }

    /** `OrderItem(product_id, quantity, unit_price)`: a quantity of 0 or less raises. */
    static method Create(productId: ProductId, quantity: int, unitPrice: Money) returns (r: Result<OrderItem, OrderError>)
      ensures r.Ok? <==> quantity > 0
      ensures r.Err? ==> r.error == InvalidQuantity
      ensures r.Ok? ==> fresh(r.value) && r.value.Valid() && r.value.AsLine() == Line(productId, quantity, unitPrice)
    {
      if quantity <= 0 {
        return Err(InvalidQuantity);
      }
      var item := new OrderItem(productId, quantity, unitPrice);
      r := Ok(item);
    }

    /** `change_quantity`: a value of 0 or less raises and leaves the quantity as it was. */
    method ChangeQuantity(newQuantity: int) returns (r: Outcome<OrderError>)
      modifies this`quantity
      ensures r.Pass? <==> newQuantity > 0
      ensures r.Fail? ==> r.error == InvalidQuantity
      ensures quantity == if newQuantity > 0 then newQuantity else old(quantity)
    {
      if newQuantity <= 0 {
        return Fail(InvalidQuantity);
      }
      quantity := newQuantity;
      r := Pass;
    }

    /** `get_subtotal`. */
    function GetSubtotal(): (r: Money)
      reads this
      requires Valid()
      ensures r.amount == unitPrice.amount * quantity && r.currency == unitPrice.currency
    {
      Subtotal(AsLine())
    }

    /** `has_product`. */
    function HasProduct(p: ProductId): (r: bool)
      ensures r <==> productId == p
    {
      productId == p
    }
  }
}
