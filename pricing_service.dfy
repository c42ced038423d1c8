/** PricingService: the discount, the shipping fee and the final amount of an order, computed
    from the customer's activity and loyalty points and the order's total. */
module Pricing {
  import opened Wrappers
  import opened Monetary

  /** `Money.from_yen(10000)`: the total from which the large-order bonus applies. */
  const LargeOrderThreshold: Money := MoneyFields(10000, JPY)
  /** `FREE_SHIPPING_THRESHOLD`. */
  const FreeShippingThreshold: Money := MoneyFields(5000, JPY)
  /** `STANDARD_SHIPPING_FEE`. */
  const StandardShippingFee: Money := MoneyFields(500, JPY)
  /** The cap on the discount rate, as a percentage. */
  const MaxDiscountPercent: nat := 30

  /** The loyalty tier: 10% from 2000 points, 5% from 1000 points, nothing below. */
  function LoyaltyPercent(points: int): (pct: nat)
    ensures pct == 0 || pct == 5 || pct == 10
    ensures pct == 10 <==> points >= 2000
    ensures pct == 0 <==> points < 1000
  {
    if points >= 2000 then 10 else if points >= 1000 then 5 else 0
  }

  /** The discount rate of an active customer, as a whole percentage. The comparison with the
      10000 yen threshold raises for a total in another currency. */
  function DiscountPercent(points: int, total: Money): (r: Result<nat, MoneyError>)
    ensures r.Ok? <==> total.currency == JPY
    ensures r.Err? ==> r.error == CurrencyMismatch(total.currency, JPY)
    ensures r.Ok? ==> r.value == LoyaltyPercent(points) + (if total.amount >= 10000 then 2 else 0)
  {
    match GreaterThanOrEqual(total, LargeOrderThreshold)
    case Err(e) => Err(e)
    case Ok(large) =>
      var rate := LoyaltyPercent(points) + (if large then 2 else 0);
      Ok(if rate > MaxDiscountPercent then MaxDiscountPercent else rate)
  }

  /** The tiers add up to at most 12%, so the 30% cap never takes effect. */
  lemma CapNeverApplies(points: int, total: Money)
    requires total.currency == JPY
    ensures DiscountPercent(points, total).value <= 12 < MaxDiscountPercent
  {
  }

  /** More points never lower the rate. */
  lemma RateMonotoneInPoints(p: int, q: int, total: Money)
    requires p <= q && total.currency == JPY
    ensures DiscountPercent(p, total).value <= DiscountPercent(q, total).value
  {
  }

  /** `calculate_discount`: an inactive customer gets `Money.zero()`; otherwise the total times
      the rate, rounded down. */
  function CalculateDiscount(isActive: bool, points: int, total: Money): (r: Result<Money, MoneyError>)
    ensures !isActive ==> r == Ok(ZeroYen)
    ensures isActive ==> (r.Ok? <==> total.currency == JPY)
    ensures isActive && r.Ok? ==> r.value.currency == total.currency
    ensures r.Ok? ==> r.value.amount * 100 <= total.amount * 12
  {
    if !isActive then Ok(ZeroYen)
    else match DiscountPercent(points, total)
      case Err(e) => Err(e)
      case Ok(pct) => Multiply(total, pct, 100)
  }

  /** The discount of an active customer is exactly the rate applied to the total, rounded down. */
  lemma DiscountIsRateOfTotal(points: int, total: Money)
    requires total.currency == JPY
    ensures var pct := DiscountPercent(points, total).value;
      CalculateDiscount(true, points, total) == Ok(MoneyFields(total.amount * pct / 100, JPY))
  {
  }

  /** `calculate_shipping_fee`: free from 5000 yen, 500 yen below; the comparison raises for a
      total in another currency. */
  function CalculateShippingFee(total: Money): (r: Result<Money, MoneyError>)
    ensures r.Ok? <==> total.currency == JPY
    ensures r.Ok? ==> r.value == (if total.amount >= 5000 then ZeroYen else StandardShippingFee)
  {
    match GreaterThanOrEqual(total, FreeShippingThreshold)
    case Err(e) => Err(e)
    case Ok(free) => if free then Ok(ZeroYen) else Ok(StandardShippingFee)
  }

  /** `calculate_final_amount`: the total less the discount, plus the shipping fee. For a yen
      total it always exists, because the discount never exceeds the total; any other currency
      raises. */
  function CalculateFinalAmount(isActive: bool, points: int, total: Money): (r: Result<Money, MoneyError>)
    ensures r.Ok? <==> total.currency == JPY
    ensures total.currency == JPY ==>
      var discount := CalculateDiscount(isActive, points, total).value;
      var shipping := CalculateShippingFee(total).value;
      && discount.amount <= total.amount
      && r.value == MoneyFields(total.amount - discount.amount + shipping.amount, JPY)
  {
    match CalculateDiscount(isActive, points, total)
    case Err(e) => Err(e)
    case Ok(discount) =>
      assert discount.amount * 100 <= total.amount * 12;
      match CalculateShippingFee(total)
      case Err(e) => Err(e)
      case Ok(shipping) =>
        match Subtract(total, discount)
        case Err(e) => Err(e)
        case Ok(net) => Add(net, shipping)
  }

  /** The figures of tests/test_pricing_service_discount.py:21-148 and
      tests/test_pricing_service.py:62-109. */
  lemma PricingExamples()
    ensures CalculateDiscount(false, 5000, MoneyFields(5000, JPY)) == Ok(ZeroYen)
    ensures CalculateDiscount(true, 1000, MoneyFields(5000, JPY)) == Ok(MoneyFields(250, JPY))
    ensures CalculateDiscount(true, 2000, MoneyFields(5000, JPY)) == Ok(MoneyFields(500, JPY))
    ensures CalculateDiscount(true, 1000, MoneyFields(12000, JPY)) == Ok(MoneyFields(840, JPY))
    ensures CalculateDiscount(true, 2000, MoneyFields(100000, JPY)) == Ok(MoneyFields(12000, JPY))
    ensures CalculateDiscount(true, 2000, MoneyFields(150000, JPY)) == Ok(MoneyFields(18000, JPY))
    ensures CalculateFinalAmount(true, 1000, MoneyFields(15000, JPY)) == Ok(MoneyFields(13950, JPY))
    ensures CalculateFinalAmount(true, 0, MoneyFields(3000, JPY)) == Ok(MoneyFields(3500, JPY))
    ensures CalculateFinalAmount(true, 0, MoneyFields(10000, JPY)) == Ok(MoneyFields(9800, JPY))
  {
  }
}
