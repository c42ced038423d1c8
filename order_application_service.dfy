/** OrderApplicationService: the use cases that create, place, summarise and cancel orders over
    the order repository. */
module OrderApplication {
  import opened Wrappers
  import opened Text
  import opened Monetary
  import opened Identifiers
  import opened OrderItems
  import opened Orders
  import opened OrderStore

  /** Every reason a use case raises: a constructor of a value object, a rule of the order, or
      an id the repository does not hold. */
  datatype ServiceError =
    | InvalidId(idError: IdError)
    | InvalidPrice(moneyError: MoneyError)
    | OrderRejected(orderError: OrderError)
    | OrderNotFound(orderId: string)

  /** One entry of `CreateOrderCommand.items`. */
  datatype ItemCommand = ItemCommand(productId: string, quantity: int, unitPrice: int)

  datatype CreateOrderCommand = CreateOrderCommand(customerId: string, items: seq<ItemCommand>)

  /** The dictionary `get_order_summary` returns. */
  datatype OrderSummary = OrderSummary(
    orderId: string,
    customerId: string,
    status: string,
    totalAmount: string,
    itemCount: nat,
    items: seq<ItemView>,
    placedAt: Option<Timestamp>)

  // ----- create_order on values -----

  /** One pass of the loop of `create_order`: the product id is built first, then the yen price,
      then `add_item` runs. */
  function AddCommand(v: OrderValue, c: ItemCommand): (r: Result<OrderValue, ServiceError>)
    ensures IsBlank(c.productId) ==> r == Err(InvalidId(EmptyProductId))
    ensures !IsBlank(c.productId) && c.unitPrice < 0 ==> r == Err(InvalidPrice(InvalidAmount))
    ensures r.Ok? ==> r.value.id == v.id && r.value.customerId == v.customerId
    ensures r.Ok? ==> r.value.status == v.status && r.value.placedAt == v.placedAt
    ensures r.Ok? ==> exists k :: 0 <= k < |r.value.lines| && r.value.lines[k].productId == ProductId(c.productId)
  {
    match NewProductId(c.productId)
    case Err(e) => Err(InvalidId(e))
    case Ok(p) =>
      match FromYen(c.unitPrice)
      case Err(e) => Err(InvalidPrice(e))
      case Ok(price) =>
        var t := AddItemTo(v, p, c.quantity, price);
        if t.outcome.Fail? then Err(OrderRejected(t.outcome.error)) else Ok(t.order)
  }

  /** The whole loop: the items in order, stopping at the first one that raises. */
  function AddAll(v: OrderValue, cs: seq<ItemCommand>): (r: Result<OrderValue, ServiceError>)
    ensures r.Ok? ==> r.value.id == v.id && r.value.customerId == v.customerId
    ensures r.Ok? ==> r.value.status == v.status && r.value.placedAt == v.placedAt
    decreases |cs|
  {
    if cs == [] then Ok(v)
    else match AddAll(v, cs[..|cs| - 1])
      case Err(e) => Err(e)
      case Ok(w) => AddCommand(w, cs[|cs| - 1])
  }

  /** The order `create_order` builds under the id `id`, or what it raises. */
  function BuiltOrder(command: CreateOrderCommand, id: OrderId): (r: Result<OrderValue, ServiceError>)
    ensures IsBlank(command.customerId) ==> r == Err(InvalidId(EmptyCustomerId))
    ensures r.Ok? ==> r.value.id == id && r.value.customerId.value == command.customerId
    ensures r.Ok? ==> r.value.status == Draft && r.value.placedAt.None?
    ensures !IsBlank(command.customerId) && command.items == [] ==> r.Ok? && r.value.lines == []
  {
    match NewCustomerId(command.customerId)
    case Err(e) => Err(InvalidId(e))
    case Ok(c) => AddAll(NewOrder(id, c), command.items)
  }

  /** One more pass of the loop. */
  lemma AddAllNext(v: OrderValue, cs: seq<ItemCommand>, i: nat)
    requires i < |cs|
    ensures AddAll(v, cs[..i + 1]) == match AddAll(v, cs[..i])
      case Err(e) => Err(e)
      case Ok(w) => AddCommand(w, cs[i])
  {
    assert cs[..i + 1][..i] == cs[..i];
  }

  /** Once an item raises, later items are never looked at. */
  lemma {:induction false} AddAllStopsAtError(v: OrderValue, cs: seq<ItemCommand>, i: nat)
    requires i <= |cs| && AddAll(v, cs[..i]).Err?
    ensures AddAll(v, cs) == AddAll(v, cs[..i])
    decreases |cs| - i
  {
    if i < |cs| {
      assert cs[..i + 1][..i] == cs[..i];
      AddAllStopsAtError(v, cs, i + 1);
    } else {
      assert cs[..i] == cs;
    }
  }

  /** The product ids the commands name. */
  function CommandProducts(cs: seq<ItemCommand>): set<ProductId> {
    set i | 0 <= i < |cs| :: ProductId(cs[i].productId)
  }

  /** The sum of quantity times unit price over the commands. */
  function CommandSum(cs: seq<ItemCommand>): int {
    if cs == [] then 0 else CommandSum(cs[..|cs| - 1]) + cs[|cs| - 1].quantity * cs[|cs| - 1].unitPrice
  }

  /** Every command naming a product gives it the same price. */
  predicate ConsistentPrices(cs: seq<ItemCommand>) {
    forall i, j :: 0 <= i < |cs| && 0 <= j < |cs| && cs[i].productId == cs[j].productId ==>
      cs[i].unitPrice == cs[j].unitPrice
  }

  /** Each line has the price of every command that names its product. */
  ghost predicate PricedByCommands(lines: seq<Line>, cs: seq<ItemCommand>) {
    forall k, i :: 0 <= k < |lines| && 0 <= i < |cs| && ProductId(cs[i].productId) == lines[k].productId ==>
      lines[k].unitPrice.amount == cs[i].unitPrice
  }

  /** What the loop of `create_order` has built from `v` after the commands `cs`: a DRAFT order
      kept in its invariant, in yen, with one line per product the commands name, each at the
      price the commands give it, and with the quantities of a product added up. */
  ghost predicate BuiltFrom(v: OrderValue, cs: seq<ItemCommand>, w: OrderValue) {
    && OrderInvariant(w) && w.status == Draft && w.placedAt.None?
    && w.id == v.id && w.customerId == v.customerId
    && AllYen(w.lines)
    && ProductSet(w.lines) == CommandProducts(cs)
    && (ConsistentPrices(cs) ==> PricedByCommands(w.lines, cs) && SumAmounts(w.lines) == CommandSum(cs))
  }

  lemma {:induction false} AddAllBuilds(v: OrderValue, cs: seq<ItemCommand>)
    requires OrderInvariant(v) && v.status == Draft && v.lines == []
    requires AddAll(v, cs).Ok?
    ensures BuiltFrom(v, cs, AddAll(v, cs).value)
    decreases |cs|
  {
    if cs != [] {
      var init := cs[..|cs| - 1];
      var c := cs[|cs| - 1];
      assert cs == init + [c];
      AddAllBuilds(v, init);
      BuildStep(v, init, c, AddAll(v, init).value);
    }
  }

  /** A successful `add_item` on a DRAFT order: the lines are edited and the total recalculated. */
  lemma AddItemSucceeded(w: OrderValue, p: ProductId, q: int, price: Money)
    requires AddItemTo(w, p, q, price).outcome.Pass?
    ensures w.status == Draft && AddLine(w.lines, p, q, price).Ok?
    ensures TotalOf(AddLine(w.lines, p, q, price).value).Ok?
    ensures AddItemTo(w, p, q, price).order ==
      w.(lines := AddLine(w.lines, p, q, price).value, total := TotalOf(AddLine(w.lines, p, q, price).value).value)
  {
  }

  /** One more command keeps what the loop has built. */
  lemma BuildStep(v: OrderValue, init: seq<ItemCommand>, c: ItemCommand, w: OrderValue)
    requires BuiltFrom(v, init, w) && AddCommand(w, c).Ok?
    ensures BuiltFrom(v, init + [c], AddCommand(w, c).value)
  {
    var cs := init + [c];
    var p := NewProductId(c.productId).value;
    var price := FromYen(c.unitPrice).value;
    AddItemSucceeded(w, p, c.quantity, price);
    AddItemKeepsInvariant(w, p, c.quantity, price);
    var lines := AddLine(w.lines, p, c.quantity, price).value;
    AddLineKeepsShape(w.lines, p, c.quantity, price);
    var u := AddCommand(w, c).value;
    assert u.lines == lines;
    AddLineKeepsYen(w.lines, p, c.quantity, price);
    assert CommandProducts(cs) == CommandProducts(init) + {p} by {
      assert forall i :: 0 <= i < |init| ==> init[i] == cs[i];
      assert cs[|init|] == c;
    }
    if ConsistentPrices(cs) {
      assert ConsistentPrices(init) by {
        assert forall i :: 0 <= i < |init| ==> init[i] == cs[i];
      }
      AddLineSum(w.lines, p, c.quantity, price);
      ConsistentMergedPrice(w.lines, init, cs, p, c);
      AddedLinePriced(w.lines, init, cs, p, c, price);
      assert cs[..|cs| - 1] == init;
    }
  }

  /** Adding a yen-priced item to yen-priced lines keeps them in yen. */
  lemma AddLineKeepsYen(lines: seq<Line>, p: ProductId, q: int, price: Money)
    requires AllYen(lines) && price.currency == JPY && AddLine(lines, p, q, price).Ok?
    ensures AllYen(AddLine(lines, p, q, price).value)
  {
    match FindLine(lines, p)
    case Some(k) =>
    case None =>
  }

  /** The price a merge keeps is the price of the new command too. */
  lemma ConsistentMergedPrice(lines: seq<Line>, init: seq<ItemCommand>, cs: seq<ItemCommand>, p: ProductId, c: ItemCommand)
    requires cs == init + [c] && ConsistentPrices(cs) && PricedByCommands(lines, init)
    requires ProductSet(lines) == CommandProducts(init) && p == ProductId(c.productId)
    ensures FindLine(lines, p).Some? ==> lines[FindLine(lines, p).value].unitPrice.amount == c.unitPrice
  {
    if FindLine(lines, p).Some? {
      var k := FindLine(lines, p).value;
      assert p in ProductSet(lines);
      var j :| 0 <= j < |init| && ProductId(init[j].productId) == p;
      assert cs[j] == init[j] && cs[|cs| - 1] == c;
    }
  }

  /** After the last command is added, each line still has the price every command gives it. */
  lemma AddedLinePriced(lines: seq<Line>, init: seq<ItemCommand>, cs: seq<ItemCommand>, p: ProductId, c: ItemCommand, price: Money)
    requires cs == init + [c] && ConsistentPrices(cs) && PricedByCommands(lines, init)
    requires DistinctProducts(lines) && p == ProductId(c.productId) && price.amount == c.unitPrice
    requires ProductSet(lines) == CommandProducts(init)
    requires AddLine(lines, p, c.quantity, price).Ok?
    requires FindLine(lines, p).Some? ==> lines[FindLine(lines, p).value].unitPrice.amount == c.unitPrice
    ensures PricedByCommands(AddLine(lines, p, c.quantity, price).value, cs)
  {
    var r := AddLine(lines, p, c.quantity, price).value;
    forall k, i | 0 <= k < |r| && 0 <= i < |cs| && ProductId(cs[i].productId) == r[k].productId
      ensures r[k].unitPrice.amount == cs[i].unitPrice
    {
      if k < |lines| {
        assert r[k].productId == lines[k].productId && r[k].unitPrice == lines[k].unitPrice;
        if i < |init| {
          assert cs[i] == init[i];
        } else {
          assert cs[i] == c;
          assert FindLine(lines, p).Some?;
        }
      } else {
        assert r[k] == Line(p, c.quantity, price);
        assert cs[|cs| - 1] == c;
      }
    }
  }

  /** Valid items never make `create_order` raise: named products, quantities of at least 1,
      prices of at least 0, and no more items than an order can hold. */
  lemma {:induction false} ValidItemsAreAccepted(v: OrderValue, cs: seq<ItemCommand>)
    requires OrderInvariant(v) && v.status == Draft && v.lines == []
    requires |cs| <= MaxItems
    requires forall i :: 0 <= i < |cs| ==> !IsBlank(cs[i].productId) && cs[i].quantity >= 1 && cs[i].unitPrice >= 0
    ensures AddAll(v, cs).Ok? && |AddAll(v, cs).value.lines| <= |cs|
    decreases |cs|
  {
    if cs != [] {
      var init := cs[..|cs| - 1];
      var c := cs[|cs| - 1];
      assert forall i :: 0 <= i < |init| ==> init[i] == cs[i];
      ValidItemsAreAccepted(v, init);
      AddAllBuilds(v, init);
      ValidCommandAccepted(v, init, c, AddAll(v, init).value);
    }
  }

  /** A valid command added to an order with room for a line succeeds and adds at most one line. */
  lemma ValidCommandAccepted(v: OrderValue, init: seq<ItemCommand>, c: ItemCommand, w: OrderValue)
    requires BuiltFrom(v, init, w) && |w.lines| < MaxItems
    requires !IsBlank(c.productId) && c.quantity >= 1 && c.unitPrice >= 0
    ensures AddCommand(w, c).Ok? && |AddCommand(w, c).value.lines| <= |w.lines| + 1
  {
    var p := NewProductId(c.productId).value;
    var price := FromYen(c.unitPrice).value;
    if FindLine(w.lines, p).None? {
      AddLineAppends(w.lines, p, c.quantity, price);
    }
    var lines := AddLine(w.lines, p, c.quantity, price).value;
    AddLineKeepsShape(w.lines, p, c.quantity, price);
    AddLineKeepsYen(w.lines, p, c.quantity, price);
    TotalIsSumOfSubtotals(lines);
  }

  /** What `create_order` saves: a DRAFT order of the customer, one line per named product (so
      `item_count` counts the distinct products), and, when every product is given one price,
      the total is the sum of quantity times price over the items. */
  lemma CreatedOrderFacts(command: CreateOrderCommand, id: OrderId)
    requires BuiltOrder(command, id).Ok?
    ensures var v := BuiltOrder(command, id).value;
      && OrderInvariant(v) && v.status == Draft && v.placedAt.None? && v.id == id
      && v.customerId.value == command.customerId
      && |v.lines| == |CommandProducts(command.items)|
      && (ConsistentPrices(command.items) ==> v.total == MoneyFields(CommandSum(command.items), JPY))
  {
    var c := NewCustomerId(command.customerId).value;
    AddAllBuilds(NewOrder(id, c), command.items);
    var v := BuiltOrder(command, id).value;
    DistinctCount(v.lines);
    TotalIsSumOfSubtotals(v.lines);
  }

  // ----- place_order and cancel_order on values -----

  /** The repository's orders after a use case, and what the use case returned or raised. */
  datatype StoreStep = StoreStep(outcome: Outcome<ServiceError>, orders: map<string, OrderValue>)

  /** `find_by_id(OrderId(text))`, and the error raised when that finds nothing. */
  function Fetch(orders: map<string, OrderValue>, text: string): (r: Result<OrderValue, ServiceError>)
    ensures r.Ok? <==> !IsBlank(text) && text in orders
    ensures r.Ok? ==> r.value == orders[text]
    ensures IsBlank(text) ==> r == Err(InvalidId(EmptyOrderId))
    ensures !IsBlank(text) && text !in orders ==> r == Err(OrderNotFound(text))
  {
    match NewOrderId(text)
    case Err(e) => Err(InvalidId(e))
    case Ok(id) => if id.value in orders then Ok(orders[id.value]) else Err(OrderNotFound(text))
  }

  /** Saving the order a transition left, unless the transition raised. */
  function SaveTransition(orders: map<string, OrderValue>, t: Transition): StoreStep {
    if t.outcome.Fail? then StoreStep(Fail(OrderRejected(t.outcome.error)), orders)
    else StoreStep(Pass, orders[t.order.id.value := t.order])
  }

  /** `place_order` on the repository's orders. */
  function PlaceStored(orders: map<string, OrderValue>, text: string, at: Timestamp): (step: StoreStep)
    ensures step.outcome.Fail? ==> step.orders == orders
    ensures step.outcome.Pass? <==>
      !IsBlank(text) && text in orders && orders[text].status == Draft && |orders[text].lines| > 0
    ensures !IsBlank(text) && text in orders && orders[text].status != Draft ==>
      step.outcome == Fail(OrderRejected(PlaceNotDraft))
  {
    match Fetch(orders, text)
    case Err(e) => StoreStep(Fail(e), orders)
    case Ok(v) => SaveTransition(orders, PlaceOrder(v, at))
  }

  /** `cancel_order` on the repository's orders. */
  function CancelStored(orders: map<string, OrderValue>, text: string): (step: StoreStep)
    ensures step.outcome.Fail? ==> step.orders == orders
    ensures step.outcome.Pass? <==>
      !IsBlank(text) && text in orders && orders[text].status in {Draft, Placed, Paid}
    ensures !IsBlank(text) && text in orders && orders[text].status in {Shipped, Delivered, Cancelled} ==>
      step.outcome == Fail(OrderRejected(CannotCancel))
  {
    match Fetch(orders, text)
    case Err(e) => StoreStep(Fail(e), orders)
    case Ok(v) => SaveTransition(orders, CancelOrder(v))
  }

  ghost predicate ValidStore(orders: map<string, OrderValue>) {
    forall k :: k in orders ==> orders[k].id.value == k && OrderInvariant(orders[k])
  }

  /** `place_order`: an unknown id raises and changes nothing; otherwise the order is placed
      exactly when it is a non-empty DRAFT, and then it is stored PLACED with its placement
      time, under the same id, with its lines and total as they were; nothing else moves. */
  lemma PlaceStoredFacts(orders: map<string, OrderValue>, text: string, at: Timestamp)
    requires ValidStore(orders)
    ensures var step := PlaceStored(orders, text, at);
      && ValidStore(step.orders)
      && (step.outcome.Fail? ==> step.orders == orders)
      && (!IsBlank(text) && text !in orders ==> step.outcome == Fail(OrderNotFound(text)))
      && (step.outcome.Pass? <==>
            !IsBlank(text) && text in orders && orders[text].status == Draft && |orders[text].lines| > 0)
      && (step.outcome.Pass? ==>
            step.orders.Keys == orders.Keys
            && step.orders[text] == orders[text].(status := Placed, placedAt := Some(at))
            && forall k :: k in orders && k != text ==> step.orders[k] == orders[k])
  {
    if !IsBlank(text) && text in orders {
      var v := orders[text];
      PlaceKeepsInvariant(v, at);
    }
  }

  /** `cancel_order`: an unknown id raises and changes nothing; otherwise the order is cancelled
      exactly when it is DRAFT, PLACED or PAID, and only its status changes. */
  lemma CancelStoredFacts(orders: map<string, OrderValue>, text: string)
    requires ValidStore(orders)
    ensures var step := CancelStored(orders, text);
      && ValidStore(step.orders)
      && (step.outcome.Fail? ==> step.orders == orders)
      && (!IsBlank(text) && text !in orders ==> step.outcome == Fail(OrderNotFound(text)))
      && (step.outcome.Pass? <==>
            !IsBlank(text) && text in orders && orders[text].status in {Draft, Placed, Paid})
      && (step.outcome.Pass? ==>
            step.orders.Keys == orders.Keys
            && step.orders[text] == orders[text].(status := Cancelled)
            && forall k :: k in orders && k != text ==> step.orders[k] == orders[k])
  {
    if !IsBlank(text) && text in orders {
      var v := orders[text];
      MoveKeepsInvariant(v, CancelStatus(v.status));
    }
  }

  /** The body of the loop of `create_order`, on the live order. */
  method AddCommandToOrder(order: Order, c: ItemCommand) returns (r: Outcome<ServiceError>)
    requires order.Valid()
    modifies order, order.items
    ensures order.Valid()
    ensures forall k :: 0 <= k < |order.items| ==> order.items[k] in old(order.items) || fresh(order.items[k])
    ensures AddCommand(old(order.Snapshot()), c) == if r.Pass? then Ok(order.Snapshot()) else Err(r.error)
  {
    var product := NewProductId(c.productId);
    if product.Err? {
      return Fail(InvalidId(product.error));
    }
    var price := FromYen(c.unitPrice);
    if price.Err? {
      return Fail(InvalidPrice(price.error));
    }
    var added := order.AddItem(product.value, c.quantity, price.value);
    if added.Fail? {
      return Fail(OrderRejected(added.error));
    }
    r := Pass;
  }

  /** The loop of `create_order` on the order it has just built: every item in order, stopping
      at the first that raises. */
  method AddItemsToOrder(order: Order, cs: seq<ItemCommand>) returns (r: Outcome<ServiceError>)
    requires order.Valid() && order.items == []
    modifies order
    ensures order.Valid()
    ensures AddAll(old(order.Snapshot()), cs) == if r.Pass? then Ok(order.Snapshot()) else Err(r.error)
  {
    ghost var start := order.Snapshot();
    ghost var initial := order.items;
    var i := 0;
    while i < |cs|
      invariant 0 <= i <= |cs|
      invariant forall k :: 0 <= k < |order.items| ==> fresh(order.items[k])
      invariant order.Valid()
      invariant AddAll(start, cs[..i]) == Ok(order.Snapshot())
    {
      AddAllNext(start, cs, i);
      ghost var before := order.Snapshot();
      var added := AddCommandToOrder(order, cs[i]);
      assert AddCommand(before, cs[i]) == if added.Pass? then Ok(order.Snapshot()) else Err(added.error);
      if added.Fail? {
        AddAllStopsAtError(start, cs, i + 1);
        return added;
      }
      i := i + 1;
    }
    assert cs[..i] == cs;
    r := Pass;
  }

  class OrderApplicationService {
    const repository: InMemoryOrderRepository

    constructor (repository: InMemoryOrderRepository)
      ensures this.repository == repository
    {
      this.repository := repository;
    }

    /** `create_order`: builds the order under `newId` (the id `Order.create` would generate),
        adds the items in order and saves it; when anything raises nothing is saved. */
    method CreateOrder(command: CreateOrderCommand, newId: OrderId) returns (r: Result<string, ServiceError>)
      requires repository.Valid()
      modifies repository`orders
      ensures repository.Valid()
      ensures BuiltOrder(command, newId).Err? ==>
        r == Err(BuiltOrder(command, newId).error) && repository.orders == old(repository.orders)
      ensures BuiltOrder(command, newId).Ok? ==>
        r == Ok(newId.value) && repository.orders == old(repository.orders)[newId.value := BuiltOrder(command, newId).value]
    {
      var customer := NewCustomerId(command.customerId);
      if customer.Err? {
        return Err(InvalidId(customer.error));
      }
      var order := new Order(newId, customer.value);
      var added := AddItemsToOrder(order, command.items);
      if added.Fail? {
        return Err(added.error);
      }
      repository.Save(order.Snapshot());
      r := Ok(newId.value);
    }

    /** `place_order`. */
    method PlaceOrder(text: string, at: Timestamp) returns (r: Outcome<ServiceError>)
      requires repository.Valid()
      modifies repository`orders
      ensures repository.Valid()
      ensures StoreStep(r, repository.orders) == PlaceStored(old(repository.orders), text, at)
    {
      var id := NewOrderId(text);
      if id.Err? {
        return Fail(InvalidId(id.error));
      }
      var found := repository.FindById(id.value);
      if found.None? {
        return Fail(OrderNotFound(text));
      }
      var placed := Orders.PlaceOrder(found.value, at);
      if placed.outcome.Fail? {
        return Fail(OrderRejected(placed.outcome.error));
      }
      PlaceKeepsInvariant(found.value, at);
      repository.Save(placed.order);
      r := Pass;
    }

    /** `get_order_summary`: nothing for an unknown id; otherwise the stored order's id, customer
        id, status name, formatted total, number of lines (one per product), item snapshots and
        placement time. */
    function GetOrderSummary(text: string): (r: Result<Option<OrderSummary>, ServiceError>)
      reads repository
      requires repository.Valid()
      ensures r.Err? <==> IsBlank(text)
      ensures r.Ok? ==> (r.value.None? <==> text !in repository.orders)
      ensures r.Ok? && r.value.Some? ==>
        var v := repository.orders[text];
        var s := r.value.value;
        && s.orderId == text && s.customerId == v.customerId.value
        && s.status == StatusName(v.status) && s.totalAmount == Format(v.total)
        && s.itemCount == |ProductSet(v.lines)| && s.items == ItemViews(v.lines)
        && s.placedAt == v.placedAt
    {
      match NewOrderId(text)
      case Err(e) => Err(InvalidId(e))
      case Ok(id) =>
        match repository.FindById(id)
        case None => Ok(None)
        case Some(v) =>
          DistinctCount(v.lines);
          Ok(Some(OrderSummary(id.value, v.customerId.value, StatusName(v.status), Format(v.total),
            |v.lines|, ItemViews(v.lines), v.placedAt)))
    }

    /** `cancel_order`. */
    method CancelOrder(text: string) returns (r: Outcome<ServiceError>)
      requires repository.Valid()
      modifies repository`orders
      ensures repository.Valid()
      ensures StoreStep(r, repository.orders) == CancelStored(old(repository.orders), text)
    {
      var id := NewOrderId(text);
      if id.Err? {
        return Fail(InvalidId(id.error));
      }
      var found := repository.FindById(id.value);
      if found.None? {
        return Fail(OrderNotFound(text));
      }
      var cancelled := Orders.CancelOrder(found.value);
      if cancelled.outcome.Fail? {
        return Fail(OrderRejected(cancelled.outcome.error));
      }
      MoveKeepsInvariant(found.value, CancelStatus(found.value.status));
      repository.Save(cancelled.order);
      r := Pass;
    }
  }
}
