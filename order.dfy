/** The Order aggregate root: a status machine over a list of order items whose total is
    recomputed after every edit. */
module Orders {
  import opened Wrappers
  import opened Monetary
  import opened Identifiers
  import opened OrderItems

  /** `Order.MAX_ITEMS`: the most lines an order holds. */
  const MaxItems: nat := 100

  /** A point in time, supplied by the caller in place of `datetime.now()`. */
  type Timestamp = int

  datatype OrderStatus = Draft | Placed | Paid | Shipped | Delivered | Cancelled

  /** The enum's `.value`. */
  function StatusName(s: OrderStatus): string {
    match s
    case Draft => "DRAFT"
    case Placed => "PLACED"
    case Paid => "PAID"
    case Shipped => "SHIPPED"
    case Delivered => "DELIVERED"
    case Cancelled => "CANCELLED"
  }

  lemma StatusNamesDistinct(s: OrderStatus, t: OrderStatus)
    ensures StatusName(s) == StatusName(t) <==> s == t
  {
  }

  // ----- the status machine -----

  /** `place`: the status is checked before the number of items. */
  function PlaceStatus(s: OrderStatus, itemCount: nat): (r: Result<OrderStatus, OrderError>)
    ensures r.Ok? <==> s == Draft && itemCount > 0
    ensures r.Ok? ==> r.value == Placed
    ensures s != Draft ==> r == Err(PlaceNotDraft)
    ensures s == Draft && itemCount == 0 ==> r == Err(EmptyOrder)
  {
    if s != Draft then Err(PlaceNotDraft)
    else if itemCount == 0 then Err(EmptyOrder)
    else Ok(Placed)
  }

  /** `mark_as_paid`. */
  function PayStatus(s: OrderStatus): (r: Result<OrderStatus, OrderError>)
    ensures r.Ok? <==> s == Placed
    ensures r.Ok? ==> r.value == Paid
    ensures r.Err? ==> r.error == PayNotPlaced
  {
    if s != Placed then Err(PayNotPlaced) else Ok(Paid)
  }

  /** `ship`. */
  function ShipStatus(s: OrderStatus): (r: Result<OrderStatus, OrderError>)
    ensures r.Ok? <==> s == Paid
    ensures r.Ok? ==> r.value == Shipped
    ensures r.Err? ==> r.error == ShipNotPaid
  {
    if s != Paid then Err(ShipNotPaid) else Ok(Shipped)
  }

  /** `deliver`. */
  function DeliverStatus(s: OrderStatus): (r: Result<OrderStatus, OrderError>)
    ensures r.Ok? <==> s == Shipped
    ensures r.Ok? ==> r.value == Delivered
    ensures r.Err? ==> r.error == DeliverNotShipped
  {
    if s != Shipped then Err(DeliverNotShipped) else Ok(Delivered)
  }

  /** `cancel`: refused from SHIPPED, DELIVERED and CANCELLED, so it succeeds exactly from
      DRAFT, PLACED and PAID. */
  function CancelStatus(s: OrderStatus): (r: Result<OrderStatus, OrderError>)
    ensures r.Ok? <==> s == Draft || s == Placed || s == Paid
    ensures r.Ok? ==> r.value == Cancelled
    ensures r.Err? ==> r.error == CannotCancel
  {
    match s
    case Draft | Placed | Paid => Ok(Cancelled)
    case Shipped | Delivered | Cancelled => Err(CannotCancel)
  }

  /** Position along the forward path DRAFT, PLACED, PAID, SHIPPED, DELIVERED. */
  function Rank(s: OrderStatus): nat
    requires s != Cancelled
  {
    match s
    case Draft => 0
    case Placed => 1
    case Paid => 2
    case Shipped => 3
    case Delivered => 4
  }

  /** Every forward transition moves exactly one step along the path, and DELIVERED and
      CANCELLED admit no transition at all. */
  lemma LinearLifecycle(s: OrderStatus, n: nat)
    ensures PlaceStatus(s, n).Ok? ==> Rank(PlaceStatus(s, n).value) == Rank(s) + 1
    ensures PayStatus(s).Ok? ==> Rank(PayStatus(s).value) == Rank(s) + 1
    ensures ShipStatus(s).Ok? ==> Rank(ShipStatus(s).value) == Rank(s) + 1
    ensures DeliverStatus(s).Ok? ==> Rank(DeliverStatus(s).value) == Rank(s) + 1
    ensures s == Delivered || s == Cancelled ==>
      PlaceStatus(s, n).Err? && PayStatus(s).Err? && ShipStatus(s).Err? && DeliverStatus(s).Err? && CancelStatus(s).Err?
  {
  }

  // ----- lines -----

  ghost predicate DistinctProducts(lines: seq<Line>) {
    forall i, j :: 0 <= i < j < |lines| ==> lines[i].productId != lines[j].productId
  }

  predicate PositiveQuantities(lines: seq<Line>) {
    forall i :: 0 <= i < |lines| ==> lines[i].quantity >= 1
  }

  /** The shape every order's lines keep: one line per product, quantities of at least 1,
      and no more than MaxItems lines. */
  ghost predicate WellFormedLines(lines: seq<Line>) {
    DistinctProducts(lines) && PositiveQuantities(lines) && |lines| <= MaxItems
  }

  predicate AllYen(lines: seq<Line>) {
    forall i :: 0 <= i < |lines| ==> lines[i].unitPrice.currency == JPY
  }

  /** `_find_item_index`: the first line holding the product. */
  function FindLine(lines: seq<Line>, p: ProductId): (r: Option<nat>)
    ensures r.Some? ==> r.value < |lines| && lines[r.value].productId == p
    ensures r.Some? ==> forall k :: 0 <= k < r.value ==> lines[k].productId != p
    ensures r.None? <==> forall k :: 0 <= k < |lines| ==> lines[k].productId != p
  {
    if |lines| == 0 then None
    else if lines[0].productId == p then Some(0)
    else match FindLine(lines[1..], p)
      case None => None
      case Some(k) => Some(k + 1)
  }

  /** The effect of `add_item` on the lines of a DRAFT order: the cap is checked first, even
      when the product is already present; a present product has its quantity increased and
      keeps its unit price; an absent one is appended. */
  function AddLine(lines: seq<Line>, p: ProductId, q: int, price: Money): (r: Result<seq<Line>, OrderError>)
    ensures |lines| >= MaxItems ==> r == Err(TooManyItems)
    ensures r.Err? ==> r.error == TooManyItems || r.error == InvalidQuantity
    ensures r.Ok? ==> |r.value| <= MaxItems
    ensures r.Ok? ==> |r.value| == |lines| || r.value == lines + [Line(p, q, price)]
    ensures r.Ok? ==> exists k :: 0 <= k < |r.value| && r.value[k].productId == p
  {
    if |lines| >= MaxItems then Err(TooManyItems)
    else match FindLine(lines, p)
      case Some(k) =>
        if lines[k].quantity + q <= 0 then Err(InvalidQuantity)
        else
          var ls := lines[k := lines[k].(quantity := lines[k].quantity + q)];
          assert ls[k].productId == p;
          Ok(ls)
      case None =>
        if q <= 0 then Err(InvalidQuantity)
        else
          var ls := lines + [Line(p, q, price)];
          assert ls[|lines|].productId == p;
          Ok(ls)
  }

  /** The effect of `remove_item` on the lines. */
  function RemoveLine(lines: seq<Line>, p: ProductId): (r: Result<seq<Line>, OrderError>)
    ensures r.Ok? <==> exists k :: 0 <= k < |lines| && lines[k].productId == p
    ensures r.Err? ==> r.error == ItemNotFound
    ensures r.Ok? ==> |r.value| == |lines| - 1
  {
    match FindLine(lines, p)
    case None => Err(ItemNotFound)
    case Some(k) => Ok(lines[..k] + lines[k + 1..])
  }

  /** The effect of `change_item_quantity` on the lines: a missing product is reported before
      a bad quantity. */
  function ChangeLineQuantity(lines: seq<Line>, p: ProductId, n: int): (r: Result<seq<Line>, OrderError>)
    ensures r.Ok? <==> n > 0 && exists k :: 0 <= k < |lines| && lines[k].productId == p
    ensures (forall k :: 0 <= k < |lines| ==> lines[k].productId != p) ==> r == Err(ItemNotFound)
    ensures r.Err? ==> r.error == ItemNotFound || r.error == InvalidQuantity
    ensures r.Ok? ==> |r.value| == |lines|
  {
    match FindLine(lines, p)
    case None => Err(ItemNotFound)
    case Some(k) => if n <= 0 then Err(InvalidQuantity) else Ok(lines[k := lines[k].(quantity := n)])
  }

  /** Merging into an existing line: no line is added, the quantities add up, the first unit
      price is kept and the given price is ignored. */
  lemma AddLineMerges(lines: seq<Line>, p: ProductId, q: int, price: Money, k: nat)
    requires DistinctProducts(lines) && |lines| < MaxItems
    requires k < |lines| && lines[k].productId == p && lines[k].quantity + q > 0
    ensures AddLine(lines, p, q, price) == Ok(lines[k := Line(p, lines[k].quantity + q, lines[k].unitPrice)])
  {
    assert FindLine(lines, p) == Some(k);
  }

  /** A product not yet present goes into a new last line with the given price. */
  lemma AddLineAppends(lines: seq<Line>, p: ProductId, q: int, price: Money)
    requires |lines| < MaxItems && q > 0
    requires forall k :: 0 <= k < |lines| ==> lines[k].productId != p
    ensures AddLine(lines, p, q, price) == Ok(lines + [Line(p, q, price)])
  {
  }

  /** A full order refuses every addition, including one that would only merge. */
  lemma FullOrderRefusesMerge(lines: seq<Line>, p: ProductId, q: int, price: Money)
    requires |lines| >= MaxItems
    ensures AddLine(lines, p, q, price) == Err(TooManyItems)
  {
  }

  lemma {:induction false} AddLineKeepsShape(lines: seq<Line>, p: ProductId, q: int, price: Money)
    requires WellFormedLines(lines) && AddLine(lines, p, q, price).Ok?
    ensures WellFormedLines(AddLine(lines, p, q, price).value)
    ensures ProductSet(AddLine(lines, p, q, price).value) == ProductSet(lines) + {p}
  {
    var r := AddLine(lines, p, q, price).value;
    match FindLine(lines, p)
    case Some(k) =>
      assert |r| == |lines| && forall i :: 0 <= i < |r| ==> r[i].productId == lines[i].productId;
    case None =>
      assert r == lines + [Line(p, q, price)];
      ProductSetAppend(lines, Line(p, q, price));
  }

  lemma ProductSetAppend(lines: seq<Line>, l: Line)
    ensures ProductSet(lines + [l]) == ProductSet(lines) + {l.productId}
  {
    var r := lines + [l];
    assert r[|lines|].productId == l.productId;
    forall x | x in ProductSet(lines) ensures x in ProductSet(r) {
      var i :| 0 <= i < |lines| && lines[i].productId == x;
      assert r[i].productId == x;
    }
  }

  lemma {:induction false} RemoveLineKeepsShape(lines: seq<Line>, p: ProductId)
    requires WellFormedLines(lines) && RemoveLine(lines, p).Ok?
    ensures WellFormedLines(RemoveLine(lines, p).value)
    ensures p !in ProductSet(RemoveLine(lines, p).value)
    ensures |RemoveLine(lines, p).value| == |lines| - 1
  {
    var k := FindLine(lines, p).value;
    var r := RemoveLine(lines, p).value;
    assert forall i :: 0 <= i < |r| ==> r[i] == (if i < k then lines[i] else lines[i + 1]);
  }

  lemma ChangeLineKeepsShape(lines: seq<Line>, p: ProductId, n: int)
    requires WellFormedLines(lines) && ChangeLineQuantity(lines, p, n).Ok?
    ensures WellFormedLines(ChangeLineQuantity(lines, p, n).value)
    ensures ChangeLineQuantity(lines, p, n).value[FindLine(lines, p).value].quantity == n
  {
  }

  function ProductSet(lines: seq<Line>): set<ProductId> {
    set i | 0 <= i < |lines| :: lines[i].productId
  }

  /** With one line per product, `item_count` is the number of distinct products. */
  lemma {:induction false} DistinctCount(lines: seq<Line>)
    requires DistinctProducts(lines)
    ensures |ProductSet(lines)| == |lines|
  {
    if lines != [] {
      var init := lines[..|lines| - 1];
      DistinctCount(init);
      assert ProductSet(lines) == ProductSet(init) + {lines[|lines| - 1].productId};
      assert lines[|lines| - 1].productId !in ProductSet(init);
    }
  }

  // ----- totals -----

  /** The sum of unit price times quantity over all lines: the reference for the total. */
  function SumAmounts(lines: seq<Line>): int {
    if lines == [] then 0 else lines[0].unitPrice.amount * lines[0].quantity + SumAmounts(lines[1..])
  }

  lemma {:induction false} SumAmountsNonNegative(lines: seq<Line>)
    requires PositiveQuantities(lines)
    ensures SumAmounts(lines) >= 0
  {
    if lines != [] {
      SumAmountsNonNegative(lines[1..]);
    }
  }

  /** The running total of `_recalculate_total`, continued from `acc` over `lines`: each line's
      subtotal is added with `Money.add`, which raises on a currency other than the total's. */
  function TotalFrom(acc: Money, lines: seq<Line>): Result<Money, MoneyError>
    decreases |lines|
  {
    if lines == [] then Ok(acc)
    else match Multiply(lines[0].unitPrice, lines[0].quantity, 1)
      case Err(e) => Err(e)
      case Ok(subtotal) =>
        match Add(acc, subtotal)
        case Err(e) => Err(e)
        case Ok(next) => TotalFrom(next, lines[1..])
  }

  /** `_recalculate_total`: starts from `Money.zero()`, which is in yen. */
  function TotalOf(lines: seq<Line>): Result<Money, MoneyError> {
    TotalFrom(ZeroYen, lines)
  }

  lemma {:induction false} TotalFromYen(acc: Money, lines: seq<Line>)
    requires acc.currency == JPY && PositiveQuantities(lines)
    ensures TotalFrom(acc, lines).Ok? <==> AllYen(lines)
    ensures AllYen(lines) ==> TotalFrom(acc, lines).value == MoneyFields(acc.amount + SumAmounts(lines), JPY)
    decreases |lines|
  {
    if lines != [] {
      var subtotal := Subtotal(lines[0]);
      assert Multiply(lines[0].unitPrice, lines[0].quantity, 1) == Ok(subtotal);
      if lines[0].unitPrice.currency == JPY {
        var next := Add(acc, subtotal).value;
        TotalFromYen(next, lines[1..]);
        assert AllYen(lines) <==> AllYen(lines[1..]);
      }
    }
  }

  /** The recalculated total exists exactly when every line is priced in yen, and it is then
      the sum of the line subtotals. */
  lemma TotalIsSumOfSubtotals(lines: seq<Line>)
    requires PositiveQuantities(lines)
    ensures TotalOf(lines).Ok? <==> AllYen(lines)
    ensures AllYen(lines) ==> TotalOf(lines).value == MoneyFields(SumAmounts(lines), JPY)
  {
    TotalFromYen(ZeroYen, lines);
  }

  /** How each line edit moves the reference sum. */
  lemma {:induction false} SumAfterAppend(lines: seq<Line>, l: Line)
    ensures SumAmounts(lines + [l]) == SumAmounts(lines) + l.unitPrice.amount * l.quantity
  {
    if lines == [] {
      assert lines + [l] == [l];
    } else {
      assert (lines + [l])[1..] == lines[1..] + [l];
      SumAfterAppend(lines[1..], l);
    }
  }

  lemma {:induction false} SumAfterUpdate(lines: seq<Line>, k: nat, l: Line)
    requires k < |lines|
    ensures SumAmounts(lines[k := l]) ==
      SumAmounts(lines) - lines[k].unitPrice.amount * lines[k].quantity + l.unitPrice.amount * l.quantity
  {
    if k > 0 {
      assert lines[k := l][1..] == lines[1..][k - 1 := l];
      SumAfterUpdate(lines[1..], k - 1, l);
    }
  }

  /** An add that succeeds raises the reference sum by the added quantity times the unit price
      the line keeps: the first price given for that product. */
  lemma AddLineSum(lines: seq<Line>, p: ProductId, q: int, price: Money)
    requires AddLine(lines, p, q, price).Ok?
    ensures var kept := match FindLine(lines, p) case Some(k) => lines[k].unitPrice case None => price;
      SumAmounts(AddLine(lines, p, q, price).value) == SumAmounts(lines) + q * kept.amount
  {
    match FindLine(lines, p)
    case Some(k) =>
      MergeSum(lines, k, q);
    case None =>
      SumAfterAppend(lines, Line(p, q, price));
  }

  /** Raising the quantity of line `k` by `q` raises the sum by `q` times its unit price. */
  lemma MergeSum(lines: seq<Line>, k: nat, q: int)
    requires k < |lines|
    ensures SumAmounts(lines[k := lines[k].(quantity := lines[k].quantity + q)]) ==
      SumAmounts(lines) + q * lines[k].unitPrice.amount
  {
    var a := lines[k].unitPrice.amount;
    var x := lines[k].quantity;
    SumAfterUpdate(lines, k, lines[k].(quantity := x + q));
    assert a * (x + q) == a * x + q * a;
  }

  // ----- the order as a value -----

  /** The state of an Order at one moment: what the repository stores. */
  datatype OrderValue = OrderValue(
    id: OrderId,
    customerId: CustomerId,
    lines: seq<Line>,
    status: OrderStatus,
    total: Money,
    placedAt: Option<Timestamp>)

  /** The aggregate's invariant. The total is in yen, and whenever every line is priced in yen
      it is the recalculated sum of the subtotals (a line in another currency makes the
      recalculation raise and leaves the previous total in place). Only a DRAFT order has no
      placement time, and an order that went past DRAFT other than by cancelling has items. */
  ghost predicate OrderInvariant(v: OrderValue) {
    && WellFormedLines(v.lines)
    && v.total.currency == JPY
    && (AllYen(v.lines) ==> TotalOf(v.lines) == Ok(v.total))
    && (v.status == Draft ==> v.placedAt.None?)
    && (v.status in {Placed, Paid, Shipped, Delivered} ==> v.placedAt.Some? && |v.lines| > 0)
  }

  /** `Order(order_id, customer_id)`. */
  function NewOrder(id: OrderId, customerId: CustomerId): (v: OrderValue)
    ensures OrderInvariant(v)
    ensures v.status == Draft && v.lines == [] && v.total == ZeroYen && v.placedAt.None?
  {
    OrderValue(id, customerId, [], Draft, ZeroYen, None)
  }

  /** What one operation returns or raises, and the order afterwards. */
  datatype Transition = Transition(outcome: Outcome<OrderError>, order: OrderValue)

  /** An item edit: refused outside DRAFT; otherwise the lines change, then the total is
      recalculated, and a recalculation that raises leaves the changed lines in place. */
  function EditOrder(v: OrderValue, edited: Result<seq<Line>, OrderError>): (t: Transition)
    ensures v.status != Draft ==> t == Transition(Fail(NotModifiable), v)
    ensures t.outcome.Pass? <==> v.status == Draft && edited.Ok? && TotalOf(edited.value).Ok?
    ensures t.outcome.Pass? ==> t.order.lines == edited.value && TotalOf(edited.value) == Ok(t.order.total)
    ensures t.order.id == v.id && t.order.customerId == v.customerId
    ensures t.order.status == v.status && t.order.placedAt == v.placedAt
  {
    if v.status != Draft then Transition(Fail(NotModifiable), v)
    else match edited
      case Err(e) => Transition(Fail(e), v)
      case Ok(ls) =>
        match TotalOf(ls)
        case Ok(total) => Transition(Pass, v.(lines := ls, total := total))
        case Err(e) => Transition(Fail(MoneyFailure(e)), v.(lines := ls))
  }

  /** `add_item`. */
  function AddItemTo(v: OrderValue, p: ProductId, q: int, price: Money): (t: Transition)
    ensures v.status != Draft ==> t == Transition(Fail(NotModifiable), v)
    ensures v.status == Draft && |v.lines| >= MaxItems ==> t == Transition(Fail(TooManyItems), v)
    ensures t.outcome.Pass? ==> exists k :: 0 <= k < |t.order.lines| && t.order.lines[k].productId == p
  {
    EditOrder(v, AddLine(v.lines, p, q, price))
  }

  /** `remove_item`. */
  function RemoveItemFrom(v: OrderValue, p: ProductId): (t: Transition)
    ensures v.status != Draft ==> t == Transition(Fail(NotModifiable), v)
    ensures v.status == Draft && (forall k :: 0 <= k < |v.lines| ==> v.lines[k].productId != p) ==>
      t == Transition(Fail(ItemNotFound), v)
    ensures t.outcome.Pass? ==> |t.order.lines| == |v.lines| - 1
  {
    EditOrder(v, RemoveLine(v.lines, p))
  }

  /** `change_item_quantity`. */
  function ChangeItemQuantityIn(v: OrderValue, p: ProductId, n: int): (t: Transition)
    ensures v.status != Draft ==> t == Transition(Fail(NotModifiable), v)
    ensures v.status == Draft && n <= 0 ==> t.outcome.Fail? && t.order == v
    ensures t.outcome.Pass? ==> |t.order.lines| == |v.lines|
  {
    EditOrder(v, ChangeLineQuantity(v.lines, p, n))
  }

  /** A status change: nothing but the status moves, and a refusal changes nothing. */
  function MoveTo(v: OrderValue, next: Result<OrderStatus, OrderError>): (t: Transition)
    ensures t.outcome.Pass? <==> next.Ok?
    ensures t.outcome.Pass? ==> t.order == v.(status := next.value)
    ensures t.outcome.Fail? ==> t.outcome.error == next.error && t.order == v
  {
    match next
    case Err(e) => Transition(Fail(e), v)
    case Ok(s) => Transition(Pass, v.(status := s))
  }

  /** `place`: records the placement time. */
  function PlaceOrder(v: OrderValue, at: Timestamp): (t: Transition)
    ensures t.outcome.Pass? <==> v.status == Draft && |v.lines| > 0
    ensures t.outcome.Pass? ==> t.order == v.(status := Placed, placedAt := Some(at))
    ensures v.status != Draft ==> t == Transition(Fail(PlaceNotDraft), v)
    ensures v.status == Draft && |v.lines| == 0 ==> t == Transition(Fail(EmptyOrder), v)
  {
    match PlaceStatus(v.status, |v.lines|)
    case Err(e) => Transition(Fail(e), v)
    case Ok(s) => Transition(Pass, v.(status := s, placedAt := Some(at)))
  }

  /** `mark_as_paid`. */
  function MarkOrderPaid(v: OrderValue): (t: Transition)
    ensures t.outcome.Pass? <==> v.status == Placed
    ensures t.outcome.Pass? ==> t.order == v.(status := Paid)
    ensures t.outcome.Fail? ==> t == Transition(Fail(PayNotPlaced), v)
  {
    MoveTo(v, PayStatus(v.status))
  }

  /** `ship`. */
  function ShipOrder(v: OrderValue): (t: Transition)
    ensures t.outcome.Pass? <==> v.status == Paid
    ensures t.outcome.Pass? ==> t.order == v.(status := Shipped)
    ensures t.outcome.Fail? ==> t == Transition(Fail(ShipNotPaid), v)
  {
    MoveTo(v, ShipStatus(v.status))
  }

  /** `deliver`. */
  function DeliverOrder(v: OrderValue): (t: Transition)
    ensures t.outcome.Pass? <==> v.status == Shipped
    ensures t.outcome.Pass? ==> t.order == v.(status := Delivered)
    ensures t.outcome.Fail? ==> t == Transition(Fail(DeliverNotShipped), v)
  {
    MoveTo(v, DeliverStatus(v.status))
  }

  /** `cancel`. */
  function CancelOrder(v: OrderValue): (t: Transition)
    ensures t.outcome.Pass? <==> v.status == Draft || v.status == Placed || v.status == Paid
    ensures t.outcome.Pass? ==> t.order == v.(status := Cancelled)
    ensures t.outcome.Fail? ==> t == Transition(Fail(CannotCancel), v)
  {
    MoveTo(v, CancelStatus(v.status))
  }

  lemma {:induction false} EditKeepsInvariant(v: OrderValue, edited: Result<seq<Line>, OrderError>)
    requires OrderInvariant(v)
    requires edited.Ok? ==> WellFormedLines(edited.value)
    ensures OrderInvariant(EditOrder(v, edited).order)
  {
    if v.status == Draft && edited.Ok? {
      TotalIsSumOfSubtotals(edited.value);
    }
  }

  /** Every item edit keeps the invariant, whether it succeeds or raises. */
  lemma AddItemKeepsInvariant(v: OrderValue, p: ProductId, q: int, price: Money)
    requires OrderInvariant(v)
    ensures OrderInvariant(AddItemTo(v, p, q, price).order)
  {
    if AddLine(v.lines, p, q, price).Ok? { AddLineKeepsShape(v.lines, p, q, price); }
    EditKeepsInvariant(v, AddLine(v.lines, p, q, price));
  }

  lemma RemoveItemKeepsInvariant(v: OrderValue, p: ProductId)
    requires OrderInvariant(v)
    ensures OrderInvariant(RemoveItemFrom(v, p).order)
  {
    if RemoveLine(v.lines, p).Ok? { RemoveLineKeepsShape(v.lines, p); }
    EditKeepsInvariant(v, RemoveLine(v.lines, p));
  }

  lemma ChangeItemQuantityKeepsInvariant(v: OrderValue, p: ProductId, n: int)
    requires OrderInvariant(v)
    ensures OrderInvariant(ChangeItemQuantityIn(v, p, n).order)
  {
    if ChangeLineQuantity(v.lines, p, n).Ok? { ChangeLineKeepsShape(v.lines, p, n); }
    EditKeepsInvariant(v, ChangeLineQuantity(v.lines, p, n));
  }

  /** Every status change keeps the invariant. */
  lemma StatusChangesKeepInvariant(v: OrderValue, at: Timestamp)
    requires OrderInvariant(v)
    ensures OrderInvariant(PlaceOrder(v, at).order)
    ensures OrderInvariant(MarkOrderPaid(v).order)
    ensures OrderInvariant(ShipOrder(v).order)
    ensures OrderInvariant(DeliverOrder(v).order)
    ensures OrderInvariant(CancelOrder(v).order)
  {
    PlaceKeepsInvariant(v, at);
    MoveKeepsInvariant(v, PayStatus(v.status));
    MoveKeepsInvariant(v, ShipStatus(v.status));
    MoveKeepsInvariant(v, DeliverStatus(v.status));
    MoveKeepsInvariant(v, CancelStatus(v.status));
  }

  /** A status change that never returns to DRAFT, and that leaves DRAFT or CANCELLED only by
      cancelling, keeps the invariant. */
  lemma MoveKeepsInvariant(v: OrderValue, next: Result<OrderStatus, OrderError>)
    requires OrderInvariant(v)
    requires next.Ok? ==> next.value != Draft
    requires next.Ok? && next.value != Cancelled ==> v.status != Draft && v.status != Cancelled
    ensures OrderInvariant(MoveTo(v, next).order)
  {
  }

  lemma PlaceKeepsInvariant(v: OrderValue, at: Timestamp)
    requires OrderInvariant(v)
    ensures OrderInvariant(PlaceOrder(v, at).order)
  {
  }

  /** After a successful edit the total is the sum of the line subtotals. */
  lemma SuccessfulEditTotal(v: OrderValue, edited: Result<seq<Line>, OrderError>)
    requires OrderInvariant(v)
    requires edited.Ok? ==> WellFormedLines(edited.value)
    requires EditOrder(v, edited).outcome.Pass?
    ensures var w := EditOrder(v, edited).order;
      AllYen(w.lines) && w.total == MoneyFields(SumAmounts(w.lines), JPY)
  {
    TotalIsSumOfSubtotals(edited.value);
  }

  /** Outside DRAFT every item edit raises and changes nothing. */
  lemma NonDraftRefusesEdits(v: OrderValue, p: ProductId, q: int, price: Money)
    requires v.status != Draft
    ensures AddItemTo(v, p, q, price) == Transition(Fail(NotModifiable), v)
    ensures RemoveItemFrom(v, p) == Transition(Fail(NotModifiable), v)
    ensures ChangeItemQuantityIn(v, p, q) == Transition(Fail(NotModifiable), v)
  {
  }

  /** An edit that raises for any reason other than a currency clash leaves the order as it was. */
  lemma FailedEditChangesNothing(v: OrderValue, edited: Result<seq<Line>, OrderError>)
    requires EditOrder(v, edited).outcome.Fail? && !EditOrder(v, edited).outcome.error.MoneyFailure?
    ensures EditOrder(v, edited).order == v
  {
  }

  /** A price in another currency is still appended before the recalculation raises: the
      line stays and the total keeps its previous value. */
  lemma ForeignPriceLeavesLine(v: OrderValue, p: ProductId, q: int, price: Money)
    requires OrderInvariant(v) && v.status == Draft && |v.lines| < MaxItems && q > 0
    requires AllYen(v.lines)
    requires forall k :: 0 <= k < |v.lines| ==> v.lines[k].productId != p
    requires price.currency != JPY
    ensures AddItemTo(v, p, q, price).outcome == Fail(MoneyFailure(CurrencyMismatch(JPY, price.currency)))
    ensures AddItemTo(v, p, q, price).order == v.(lines := v.lines + [Line(p, q, price)])
  {
    var ls := v.lines + [Line(p, q, price)];
    assert AddLine(v.lines, p, q, price) == Ok(ls);
    assert !AllYen(ls) by { assert ls[|ls| - 1].unitPrice.currency != JPY; }
    TotalIsSumOfSubtotals(ls);
    ForeignLineMismatch(ZeroYen, ls);
    var c := TotalOf(ls).error.right;
    var i :| 0 <= i < |ls| && ls[i].unitPrice.currency == c && c != JPY;
    assert i == |v.lines|;
  }

  lemma {:induction false} ForeignLineMismatch(acc: Money, lines: seq<Line>)
    requires acc.currency == JPY && PositiveQuantities(lines) && !AllYen(lines)
    ensures TotalFrom(acc, lines).Err? && TotalFrom(acc, lines).error.CurrencyMismatch?
    ensures TotalFrom(acc, lines).error.left == JPY
    ensures var c := TotalFrom(acc, lines).error.right; exists i :: 0 <= i < |lines| && lines[i].unitPrice.currency == c && c != JPY
    decreases |lines|
  {
    var subtotal := Subtotal(lines[0]);
    assert Multiply(lines[0].unitPrice, lines[0].quantity, 1) == Ok(subtotal);
    if lines[0].unitPrice.currency == JPY {
      assert !AllYen(lines[1..]);
      ForeignLineMismatch(Add(acc, subtotal).value, lines[1..]);
      var c := TotalFrom(acc, lines).error.right;
      var i :| 0 <= i < |lines[1..]| && lines[1..][i].unitPrice.currency == c && c != JPY;
      assert lines[i + 1].unitPrice.currency == c;
    }
  }

  /** A worked scenario: two adds of the same product merge into quantity 5 and a total of
      5000 yen (tests/test_order.py:36-45); placing sets the time; cancelling works; placing
      again is refused. */
  lemma ExampleScenario(id: OrderId, c: CustomerId, p: ProductId, at: Timestamp)
    ensures var price := MoneyFields(1000, JPY);
      var o0 := NewOrder(id, c);
      var t1 := AddItemTo(o0, p, 2, price);
      var t2 := AddItemTo(t1.order, p, 3, price);
      var t3 := PlaceOrder(t2.order, at);
      var t4 := CancelOrder(t3.order);
      var t5 := PlaceOrder(t4.order, at);
      && t1.outcome.Pass? && t2.outcome.Pass?
      && t2.order.lines == [Line(p, 5, price)]
      && t2.order.total == MoneyFields(5000, JPY)
      && t3.outcome.Pass? && t3.order.status == Placed && t3.order.placedAt == Some(at)
      && t4.outcome.Pass? && t4.order.status == Cancelled
      && t5 == Transition(Fail(PlaceNotDraft), t4.order)
  {
    var price := MoneyFields(1000, JPY);
    var l1 := [Line(p, 2, price)];
    assert FindLine([], p) == None;
    assert [] + [Line(p, 2, price)] == l1;
    assert AddLine([], p, 2, price) == Ok(l1);
    assert SumAmounts(l1) == 2000;
    TotalIsSumOfSubtotals(l1);
    assert FindLine(l1, p) == Some(0);
    var l2 := [Line(p, 5, price)];
    assert l1[0 := l1[0].(quantity := 5)] == l2;
    assert AddLine(l1, p, 3, price) == Ok(l2);
    assert SumAmounts(l2) == 5000;
    TotalIsSumOfSubtotals(l2);
  }

  // ----- get_items -----

  /** One entry of `get_items`: a snapshot of a line with its subtotal. */
  datatype ItemView = ItemView(productId: ProductId, quantity: int, unitPrice: Money, subtotal: Money)

  function ItemViews(lines: seq<Line>): (r: seq<ItemView>)
    requires PositiveQuantities(lines)
    ensures |r| == |lines|
    ensures forall i :: 0 <= i < |lines| ==>
      r[i].productId == lines[i].productId && r[i].quantity == lines[i].quantity &&
      r[i].unitPrice == lines[i].unitPrice &&
      r[i].subtotal.amount == lines[i].unitPrice.amount * lines[i].quantity &&
      r[i].subtotal.currency == lines[i].unitPrice.currency
  {
    seq(|lines|, i requires 0 <= i < |lines| && PositiveQuantities(lines) =>
      ItemView(lines[i].productId, lines[i].quantity, lines[i].unitPrice, Subtotal(lines[i])))
  }

  // ----- the aggregate root object -----

  function LinesOf(items: seq<OrderItem>): (ls: seq<Line>)
    reads items
    ensures |ls| == |items|
    ensures forall i :: 0 <= i < |items| ==> ls[i] == items[i].AsLine()
  {
    if items == [] then [] else LinesOf(items[..|items| - 1]) + [items[|items| - 1].AsLine()]
  }

  lemma LinesOfRemove(items: seq<OrderItem>, k: nat)
    requires k < |items|
    ensures LinesOf(items[..k] + items[k + 1..]) == LinesOf(items)[..k] + LinesOf(items)[k + 1..]
  {
    var a := LinesOf(items[..k] + items[k + 1..]);
    var b := LinesOf(items)[..k] + LinesOf(items)[k + 1..];
    assert |a| == |b|;
    forall i | 0 <= i < |a| ensures a[i] == b[i] {
      if i < k {
        assert (items[..k] + items[k + 1..])[i] == items[i];
      } else {
        assert (items[..k] + items[k + 1..])[i] == items[i + 1];
      }
    }
  }

  lemma LinesOfAppend(items: seq<OrderItem>, item: OrderItem)
    ensures LinesOf(items + [item]) == LinesOf(items) + [item.AsLine()]
  {
    assert (items + [item])[..|items|] == items;
  }

  class Order {
    const id: OrderId
    const customerId: CustomerId
    var items: seq<OrderItem>
    var status: OrderStatus
    var total: Money
    var placedAt: Option<Timestamp>

    function Lines(): seq<Line>
      reads this`items, items
    {
      LinesOf(items)
    }

    function Snapshot(): (v: OrderValue)
      reads this, items
      ensures v.id == id && v.customerId == customerId && v.lines == Lines()
      ensures v.status == status && v.total == total && v.placedAt == placedAt
    {
      OrderValue(id, customerId, Lines(), status, total, placedAt)
    }

    ghost predicate Valid()
      reads this, items
    {
      OrderInvariant(Snapshot())
    }

    constructor (id: OrderId, customerId: CustomerId)
      ensures Valid() && Snapshot() == NewOrder(id, customerId)
    {
      this.id := id;
      this.customerId := customerId;
      items := [];
      status := Draft;
      total := ZeroYen;
      placedAt := None;
    }

    /** `item_count`. */
    function ItemCount(): (n: nat)
      reads this
      ensures n == |items|
    {
      |items|
    }

    /** `get_items`: fresh values, never the live items. */
    function GetItems(): (r: seq<ItemView>)
      reads this, items
      requires Valid()
      ensures r == ItemViews(Lines())
    {
      ItemViews(Lines())
    }

    /** `__eq__`: orders are the same entity when their ids are equal. */
    function SameAs(other: Order): (r: bool)
      ensures r <==> id == other.id
    {
      id == other.id
    }

    /** `_find_item_index`. */
    method FindItemIndex(p: ProductId) returns (r: Option<nat>)
      ensures r == FindLine(Lines(), p)
    {
      var i := 0;
      while i < |items|
        invariant 0 <= i <= |items|
        invariant forall k :: 0 <= k < i ==> Lines()[k].productId != p
      {
        if items[i].HasProduct(p) {
          assert Lines()[i].productId == p;
          return Some(i);
        }
        i := i + 1;
      }
      r := None;
    }

    /** `_find_item`: the live item holding the product. */
    method FindItem(p: ProductId) returns (r: Option<OrderItem>)
      ensures FindLine(Lines(), p).None? ==> r.None?
      ensures FindLine(Lines(), p).Some? ==> r == Some(items[FindLine(Lines(), p).value])
    {
      var i := 0;
      while i < |items|
        invariant 0 <= i <= |items|
        invariant forall k :: 0 <= k < i ==> Lines()[k].productId != p
      {
        if items[i].HasProduct(p) {
          assert Lines()[i].productId == p;
          return Some(items[i]);
        }
        i := i + 1;
      }
      r := None;
    }

    /** `_recalculate_total`: a running total from `Money.zero()`; an `add` that raises leaves
        the stored total as it was. */
    method RecalculateTotal() returns (r: Outcome<MoneyError>)
      requires PositiveQuantities(Lines())
      modifies this`total
      ensures TotalOf(Lines()).Ok? ==> r == Pass && Snapshot() == old(Snapshot()).(total := TotalOf(Lines()).value)
      ensures TotalOf(Lines()).Err? ==> r == Fail(TotalOf(Lines()).error) && Snapshot() == old(Snapshot())
    {
      var lines := Lines();
      var acc := ZeroYen;
      var i := 0;
      while i < |items|
        invariant 0 <= i <= |items| && lines == Lines()
        invariant TotalFrom(acc, lines[i..]) == TotalOf(lines)
      {
        assert lines[i..][1..] == lines[i + 1..];
        assert items[i].AsLine() == lines[i];
        assert Multiply(lines[i].unitPrice, lines[i].quantity, 1) == Ok(items[i].GetSubtotal());
        var sum := Add(acc, items[i].GetSubtotal());
        if sum.Err? {
          return Fail(sum.error);
        }
        acc := sum.value;
        i := i + 1;
      }
      assert lines[i..] == [];
      total := acc;
      r := Pass;
    }

    /** `add_item`. */
    method AddItem(p: ProductId, quantity: int, unitPrice: Money) returns (r: Outcome<OrderError>)
      requires Valid()
      modifies this, items
      ensures Valid()
      ensures Transition(r, Snapshot()) == AddItemTo(old(Snapshot()), p, quantity, unitPrice)
      ensures forall k :: 0 <= k < |items| ==> items[k] in old(items) || fresh(items[k])
    {
      ghost var before := Snapshot();
      AddItemKeepsInvariant(before, p, quantity, unitPrice);
      if status != Draft {
        return Fail(NotModifiable);
      }
      if |items| >= MaxItems {
        return Fail(TooManyItems);
      }
      var placed := PutItem(p, quantity, unitPrice);
      if placed.Fail? {
        return placed;
      }
      AddLineKeepsShape(before.lines, p, quantity, unitPrice);
      r := FinishEdit(before, AddLine(before.lines, p, quantity, unitPrice));
    }

    /** The middle of `add_item`: merge into the item already holding the product, or append
        a new item. */
    method PutItem(p: ProductId, quantity: int, unitPrice: Money) returns (r: Outcome<OrderError>)
      requires Valid() && |items| < MaxItems
      modifies this`items, items
      ensures AddLine(old(Lines()), p, quantity, unitPrice).Err? ==>
        r == Fail(AddLine(old(Lines()), p, quantity, unitPrice).error) && Snapshot() == old(Snapshot())
      ensures AddLine(old(Lines()), p, quantity, unitPrice).Ok? ==>
        r == Pass && Snapshot() == old(Snapshot()).(lines := AddLine(old(Lines()), p, quantity, unitPrice).value)
      ensures forall k :: 0 <= k < |items| ==> items[k] in old(items) || fresh(items[k])
    {
      var existing := FindItem(p);
      if existing.Some? {
        r := MergeItem(existing.value, FindLine(Lines(), p).value, p, quantity, unitPrice);
      } else {
        r := AppendNewItem(p, quantity, unitPrice);
      }
    }

    /** `existing_item.change_quantity(existing_item.quantity + quantity)`. */
    method MergeItem(item: OrderItem, ghost k: nat, p: ProductId, quantity: int, unitPrice: Money) returns (r: Outcome<OrderError>)
      requires Valid() && |items| < MaxItems
      requires FindLine(Lines(), p) == Some(k) && items[k] == item
      modifies item`quantity
      ensures AddLine(old(Lines()), p, quantity, unitPrice).Err? ==>
        r == Fail(AddLine(old(Lines()), p, quantity, unitPrice).error) && Snapshot() == old(Snapshot())
      ensures AddLine(old(Lines()), p, quantity, unitPrice).Ok? ==>
        r == Pass && Snapshot() == old(Snapshot()).(lines := AddLine(old(Lines()), p, quantity, unitPrice).value)
    {
      ghost var before := Lines();
      assert item.quantity == before[k].quantity;
      r := ChangeQuantityAt(item, k, item.quantity + quantity);
      if r.Pass? {
        AddLineMerges(before, p, quantity, unitPrice, k);
        assert before[k].(quantity := before[k].quantity + quantity) == Line(p, before[k].quantity + quantity, before[k].unitPrice);
      } else {
        assert AddLine(before, p, quantity, unitPrice) == Err(InvalidQuantity);
      }
    }

    /** `self._items.append(OrderItem(product_id, quantity, unit_price))`. */
    method AppendNewItem(p: ProductId, quantity: int, unitPrice: Money) returns (r: Outcome<OrderError>)
      requires |items| < MaxItems && FindLine(Lines(), p).None?
      modifies this`items
      ensures AddLine(old(Lines()), p, quantity, unitPrice).Err? ==>
        r == Fail(AddLine(old(Lines()), p, quantity, unitPrice).error) && Snapshot() == old(Snapshot())
      ensures AddLine(old(Lines()), p, quantity, unitPrice).Ok? ==>
        r == Pass && Snapshot() == old(Snapshot()).(lines := AddLine(old(Lines()), p, quantity, unitPrice).value)
      ensures forall k :: 0 <= k < |items| ==> items[k] in old(items) || fresh(items[k])
    {
      var created := OrderItem.Create(p, quantity, unitPrice);
      if created.Err? {
        return Fail(created.error);
      }
      AddLineAppends(Lines(), p, quantity, unitPrice);
      AppendItem(created.value);
      r := Pass;
    }

    /** `remove_item`. */
    method RemoveItem(p: ProductId) returns (r: Outcome<OrderError>)
      requires Valid()
      modifies this
      ensures Valid()
      ensures Transition(r, Snapshot()) == RemoveItemFrom(old(Snapshot()), p)
    {
      ghost var before := Snapshot();
      RemoveItemKeepsInvariant(before, p);
      if status != Draft {
        return Fail(NotModifiable);
      }
      var index := FindItemIndex(p);
      if index.None? {
        return Fail(ItemNotFound);
      }
      DropItem(index.value);
      RemoveLineKeepsShape(before.lines, p);
      r := FinishEdit(before, RemoveLine(before.lines, p));
    }

    /** `change_item_quantity`. */
    method ChangeItemQuantity(p: ProductId, newQuantity: int) returns (r: Outcome<OrderError>)
      requires Valid()
      modifies this, items
      ensures Valid()
      ensures Transition(r, Snapshot()) == ChangeItemQuantityIn(old(Snapshot()), p, newQuantity)
    {
      ghost var before := Snapshot();
      ChangeItemQuantityKeepsInvariant(before, p, newQuantity);
      if status != Draft {
        return Fail(NotModifiable);
      }
      var found := FindItem(p);
      if found.None? {
        return Fail(ItemNotFound);
      }
      var changed := ChangeQuantityAt(found.value, FindLine(before.lines, p).value, newQuantity);
      if changed.Fail? {
        return changed;
      }
      ChangeLineKeepsShape(before.lines, p, newQuantity);
      r := FinishEdit(before, ChangeLineQuantity(before.lines, p, newQuantity));
    }

    /** `self._items.append(new_item)`. */
    method AppendItem(item: OrderItem)
      modifies this`items
      ensures Snapshot() == old(Snapshot()).(lines := old(Lines()) + [item.AsLine()])
      ensures items == old(items) + [item]
    {
      var longer := items + [item];
      LinesOfAppend(items, item);
      ghost var lines := LinesOf(longer);
      items := longer;
      assert Lines() == lines;
    }

    /** `self._items.pop(item_index)`. */
    method DropItem(k: nat)
      requires k < |items|
      modifies this`items
      ensures Snapshot() == old(Snapshot()).(lines := old(Lines())[..k] + old(Lines())[k + 1..])
    {
      var rest := items[..k] + items[k + 1..];
      LinesOfRemove(items, k);
      ghost var lines := LinesOf(rest);
      items := rest;
      assert Lines() == lines;
    }

    /** `change_quantity` called on the live item at position `k`: only that line changes. */
    method ChangeQuantityAt(item: OrderItem, ghost k: nat, n: int) returns (r: Outcome<OrderError>)
      requires Valid() && k < |items| && items[k] == item
      modifies item`quantity
      ensures r.Pass? <==> n > 0
      ensures r.Fail? ==> r.error == InvalidQuantity
      ensures Snapshot() == old(Snapshot()).(lines := if n > 0 then old(Lines())[k := old(Lines())[k].(quantity := n)] else old(Lines()))
    {
      OthersAreDistinct(k);
      ghost var earlier := Lines();
      r := item.ChangeQuantity(n);
      if n > 0 {
        LinesAfterQuantityChange(earlier, k, earlier[k].(quantity := n));
      } else {
        LinesAfterQuantityChange(earlier, k, earlier[k]);
        assert earlier[k := earlier[k]] == earlier;
      }
    }

    /** The common tail of the item edits: the lines already hold the edit, and the total is
        recalculated. */
    method FinishEdit(ghost before: OrderValue, ghost edited: Result<seq<Line>, OrderError>) returns (r: Outcome<OrderError>)
      requires before.status == Draft && edited == Ok(Lines())
      requires Snapshot() == before.(lines := Lines()) && WellFormedLines(Lines())
      modifies this`total
      ensures Transition(r, Snapshot()) == EditOrder(before, edited)
    {
      var recalculated := RecalculateTotal();
      if recalculated.Fail? {
        return Fail(MoneyFailure(recalculated.error));
      }
      r := Pass;
    }

    /** After item `k` alone changed its quantity, the lines are the earlier ones with line `k`
        replaced. */
    lemma LinesAfterQuantityChange(earlier: seq<Line>, k: nat, l: Line)
      requires |earlier| == |items| && k < |items|
      requires forall j :: 0 <= j < |items| && j != k ==> items[j].AsLine() == earlier[j]
      requires items[k].AsLine() == l
      ensures Lines() == earlier[k := l]
    {
    }

    /** With one line per product, the item at `k` is a different object from every other. */
    lemma OthersAreDistinct(k: nat)
      requires Valid() && k < |items|
      ensures forall j :: 0 <= j < |items| && j != k ==> items[j] != items[k]
    {
      forall j | 0 <= j < |items| && j != k
        ensures items[j] != items[k]
      {
        assert Lines()[j].productId != Lines()[k].productId;
      }
    }

    /** `place`: `at` stands for the clock reading `datetime.now()`. */
    method Place(at: Timestamp) returns (r: Outcome<OrderError>)
      requires Valid()
      modifies this`status, this`placedAt
      ensures Valid()
      ensures Transition(r, Snapshot()) == PlaceOrder(old(Snapshot()), at)
    {
      PlaceKeepsInvariant(Snapshot(), at);
      if status != Draft {
        return Fail(PlaceNotDraft);
      }
      if |items| == 0 {
        return Fail(EmptyOrder);
      }
      status := Placed;
      placedAt := Some(at);
      r := Pass;
    }

    /** `mark_as_paid`. */
    method MarkAsPaid() returns (r: Outcome<OrderError>)
      requires Valid()
      modifies this`status
      ensures Valid()
      ensures Transition(r, Snapshot()) == MarkOrderPaid(old(Snapshot()))
    {
      MoveKeepsInvariant(Snapshot(), PayStatus(status));
      if status != Placed {
        return Fail(PayNotPlaced);
      }
      status := Paid;
      r := Pass;
    }

    /** `ship`. */
    method Ship() returns (r: Outcome<OrderError>)
      requires Valid()
      modifies this`status
      ensures Valid()
      ensures Transition(r, Snapshot()) == ShipOrder(old(Snapshot()))
    {
      MoveKeepsInvariant(Snapshot(), ShipStatus(status));
      if status != Paid {
        return Fail(ShipNotPaid);
      }
      status := Shipped;
      r := Pass;
    }

    /** `deliver`. */
    method Deliver() returns (r: Outcome<OrderError>)
      requires Valid()
      modifies this`status
      ensures Valid()
      ensures Transition(r, Snapshot()) == DeliverOrder(old(Snapshot()))
    {
      MoveKeepsInvariant(Snapshot(), DeliverStatus(status));
      if status != Shipped {
        return Fail(DeliverNotShipped);
      }
      status := Delivered;
      r := Pass;
    }

    /** `cancel`. */
    method Cancel() returns (r: Outcome<OrderError>)
      requires Valid()
      modifies this`status
      ensures Valid()
      ensures Transition(r, Snapshot()) == CancelOrder(old(Snapshot()))
    {
      MoveKeepsInvariant(Snapshot(), CancelStatus(status));
      if status.Shipped? || status.Delivered? || status.Cancelled? {
        return Fail(CannotCancel);
      }
      status := Cancelled;
      r := Pass;
    }
  }
}
