/** The Money value object: an immutable, validated amount in a three-letter currency. */
module Monetary {
  import opened Wrappers

  const JPY: string := "JPY"

  /** The reasons a Money operation raises. */
  datatype MoneyError =
    | InvalidAmount               // the amount is negative
    | InvalidCurrency             // the currency code is not three characters long
    | CurrencyMismatch(left: string, right: string)
    | NegativeResult              // a subtraction would go below zero
    | InvalidFactor               // a multiplier is negative

  /** The two fields of the frozen dataclass. */
  datatype MoneyFields = MoneyFields(amount: int, currency: string)

  /** A Money instance: construction validates both fields, so every instance satisfies them. */
  type Money = m: MoneyFields | m.amount >= 0 && |m.currency| == 3 witness MoneyFields(0, "JPY")

  /** `Money.zero()` with its default currency. */
  const ZeroYen: Money := MoneyFields(0, JPY)

  /** `Money(amount, currency)`: the amount is checked first, then the currency. */
  function New(amount: int, currency: string): (r: Result<Money, MoneyError>)
    ensures r.Ok? <==> amount >= 0 && |currency| == 3
    ensures r.Ok? ==> r.value.amount == amount && r.value.currency == currency
    ensures amount < 0 ==> r == Err(InvalidAmount)
    ensures amount >= 0 && |currency| != 3 ==> r == Err(InvalidCurrency)
  {
    if amount < 0 then Err(InvalidAmount)
    else if |currency| != 3 then Err(InvalidCurrency)
    else Ok(MoneyFields(amount, currency))
  }

  /** `Money.zero(currency)`. */
  function Zero(currency: string): (r: Result<Money, MoneyError>)
    ensures r.Ok? <==> |currency| == 3
    ensures r.Ok? ==> IsZero(r.value) && r.value.currency == currency
  {
    New(0, currency)
  }

  /** `Money.from_yen(amount)`. */
  function FromYen(amount: int): (r: Result<Money, MoneyError>)
    ensures r.Ok? <==> amount >= 0
    ensures r.Ok? ==> r.value.currency == JPY && r.value.amount == amount
  {
    New(amount, JPY)
  }

  /** `zero()` with the default currency is the constant used by Order and PricingService. */
  lemma ZeroDefaultIsYen()
    ensures Zero(JPY) == Ok(ZeroYen) && IsZero(ZeroYen)
  {
  }

  /** `_assert_same_currency`. */
  function SameCurrency(a: Money, b: Money): (r: Outcome<MoneyError>)
    ensures r.Pass? <==> a.currency == b.currency
    ensures r.Fail? ==> r.error == CurrencyMismatch(a.currency, b.currency)
  {
    if a.currency != b.currency then Fail(CurrencyMismatch(a.currency, b.currency)) else Pass
  }

  /** `a.add(b)`: a new Money holding the sum; `a` and `b` are values and stay as they were. */
  function Add(a: Money, b: Money): (r: Result<Money, MoneyError>)
    ensures r.Ok? <==> a.currency == b.currency
    ensures r.Ok? ==> r.value.amount == a.amount + b.amount && r.value.currency == a.currency
    ensures r.Err? ==> r.error == CurrencyMismatch(a.currency, b.currency)
  {
    match SameCurrency(a, b)
    case Fail(e) => Err(e)
    case Pass => New(a.amount + b.amount, a.currency)
  }

  /** `a.subtract(b)`: the currency is checked before the sign of the result. */
  function Subtract(a: Money, b: Money): (r: Result<Money, MoneyError>)
    ensures r.Ok? <==> a.currency == b.currency && b.amount <= a.amount
    ensures r.Ok? ==> r.value.amount == a.amount - b.amount && r.value.currency == a.currency
    ensures a.currency != b.currency ==> r == Err(CurrencyMismatch(a.currency, b.currency))
    ensures a.currency == b.currency && a.amount < b.amount ==> r == Err(NegativeResult)
  {
    match SameCurrency(a, b)
    case Fail(e) => Err(e)
    case Pass =>
      var result := a.amount - b.amount;
      if result < 0 then Err(NegativeResult) else New(result, a.currency)
  }

  /** `a.multiply(num / den)`: the multiplier is the rational number num/den, and `int(...)`
      truncates the non-negative product, which is rounding down. */
  function Multiply(a: Money, num: int, den: nat): (r: Result<Money, MoneyError>)
    requires den > 0
    ensures r.Ok? <==> num >= 0
    ensures r.Ok? ==> r.value.currency == a.currency
    ensures r.Ok? ==> r.value.amount * den <= a.amount * num < (r.value.amount + 1) * den
    ensures r.Err? ==> r.error == InvalidFactor
  {
    if num < 0 then Err(InvalidFactor)
    else New(a.amount * num / den, a.currency)
  }

  /** With a whole multiplier nothing is truncated. */
  lemma MultiplyWhole(a: Money, k: nat)
    ensures Multiply(a, k, 1) == Ok(MoneyFields(a.amount * k, a.currency))
  {
  }

  /** `a.greater_than(b)`. */
  function GreaterThan(a: Money, b: Money): (r: Result<bool, MoneyError>)
    ensures r.Ok? <==> a.currency == b.currency
    ensures r.Ok? ==> (r.value <==> a.amount > b.amount)
  {
    match SameCurrency(a, b)
    case Fail(e) => Err(e)
    case Pass => Ok(a.amount > b.amount)
  }

  /** `a.less_than(b)`. */
  function LessThan(a: Money, b: Money): (r: Result<bool, MoneyError>)
    ensures r.Ok? <==> a.currency == b.currency
    ensures r.Ok? ==> (r.value <==> a.amount < b.amount)
  {
    match SameCurrency(a, b)
    case Fail(e) => Err(e)
    case Pass => Ok(a.amount < b.amount)
  }

  /** `a.greater_than_or_equal(b)`. */
  function GreaterThanOrEqual(a: Money, b: Money): (r: Result<bool, MoneyError>)
    ensures r.Ok? <==> a.currency == b.currency
    ensures r.Ok? ==> (r.value <==> a.amount >= b.amount)
  {
    match SameCurrency(a, b)
    case Fail(e) => Err(e)
    case Pass => Ok(a.amount >= b.amount)
  }

  /** `a.less_than_or_equal(b)`. */
  function LessThanOrEqual(a: Money, b: Money): (r: Result<bool, MoneyError>)
    ensures r.Ok? <==> a.currency == b.currency
    ensures r.Ok? ==> (r.value <==> a.amount <= b.amount)
  {
    match SameCurrency(a, b)
    case Fail(e) => Err(e)
    case Pass => Ok(a.amount <= b.amount)
  }

  /** The comparisons fail together, and with a shared currency they form a consistent
      ordering: `>=` negates `<`, `<=` negates `>`, and exactly one of `<`, `==`, `>` holds. */
  lemma ComparisonsAgree(a: Money, b: Money)
    requires a.currency == b.currency
    ensures GreaterThanOrEqual(a, b).value == !LessThan(a, b).value
    ensures LessThanOrEqual(a, b).value == !GreaterThan(a, b).value
    ensures LessThan(a, b).value == GreaterThan(b, a).value
    ensures !LessThan(a, b).value && !GreaterThan(a, b).value <==> a == b
  {
  }

  /** `is_zero()`. */
  predicate IsZero(m: Money) {
    m.amount == 0
  }

  /** A zero amount is exactly what `Money.zero` builds for its currency, and it is the
      identity of addition in that currency. */
  lemma ZeroIsIdentity(m: Money, n: Money)
    ensures IsZero(m) <==> Zero(m.currency) == Ok(m)
    ensures IsZero(m) && m.currency == n.currency ==> Add(m, n) == Ok(n) && Add(n, m) == Ok(n)
  {
  }

  // ----- format -----

  function DigitChar(d: int): (c: char)
    requires 0 <= d < 10
    ensures '0' <= c <= '9' && c as int - '0' as int == d
  {
    ('0' as int + d) as char
  }

  predicate IsDigit(c: char) {
    '0' <= c <= '9'
  }

  /** The decimal numeral of `n`, without separators and without leading zeros. */
  function Decimal(n: nat): (r: string)
    ensures |r| >= 1 && (forall i :: 0 <= i < |r| ==> IsDigit(r[i]))
    ensures |r| > 1 ==> r[0] != '0'
    decreases n
  {
    if n < 10 then [DigitChar(n)] else Decimal(n / 10) + [DigitChar(n % 10)]
  }

  /** The number a string of digits denotes. */
  function NumeralValue(s: string): nat
    requires forall i :: 0 <= i < |s| ==> IsDigit(s[i])
  {
    if s == [] then 0
    else
      assert IsDigit(s[|s| - 1]);
      NumeralValue(s[..|s| - 1]) * 10 + (s[|s| - 1] as int - '0' as int)
  }

  /** Decimal is the numeral of the amount it was built from. */
  lemma {:induction false} DecimalDenotes(n: nat)
    ensures NumeralValue(Decimal(n)) == n
    decreases n
  {
    var d := Decimal(n);
    if n >= 10 {
      DecimalDenotes(n / 10);
      assert d[..|d| - 1] == Decimal(n / 10);
    }
  }

  /** Three digits with leading zeros: one group after a thousands separator. */
  function Pad3(n: nat): (r: string)
    requires n < 1000
    ensures |r| == 3 && (forall i :: 0 <= i < 3 ==> IsDigit(r[i]))
  {
    [DigitChar(n / 100), DigitChar(n / 10 % 10), DigitChar(n % 10)]
  }

  /** `f'{n:,}'`: the decimal numeral with a comma before every group of three digits
      counted from the right. */
  function Grouped(n: nat): (r: string)
    decreases n
  {
    if n < 1000 then Decimal(n) else Grouped(n / 1000) + "," + Pad3(n % 1000)
  }

  function WithoutCommas(s: string): string {
    if s == [] then []
    else (if s[0] == ',' then [] else [s[0]]) + WithoutCommas(s[1..])
  }

  lemma WithoutCommasAppend(a: string, b: string)
    ensures WithoutCommas(a + b) == WithoutCommas(a) + WithoutCommas(b)
  {
    if a == [] {
      assert a + b == b;
    } else {
      assert (a + b)[1..] == a[1..] + b;
      WithoutCommasAppend(a[1..], b);
    }
  }

  lemma WithoutCommasOfDigits(s: string)
    requires forall i :: 0 <= i < |s| ==> IsDigit(s[i])
    ensures WithoutCommas(s) == s
  {
    if s != [] {
      WithoutCommasOfDigits(s[1..]);
    }
  }

  /** The last three digits of a numeral of at least four digits are the remainder modulo 1000. */
  lemma DecimalSplit(n: nat)
    requires n >= 1000
    ensures Decimal(n) == Decimal(n / 1000) + Pad3(n % 1000)
  {
    var r := n % 1000;
    assert n / 10 / 10 / 10 == n / 1000;
    assert n / 10 / 10 % 10 == r / 100;
    assert n / 10 % 10 == r / 10 % 10;
    assert n % 10 == r % 10;
    calc {
      Decimal(n);
      Decimal(n / 10) + [DigitChar(n % 10)];
      Decimal(n / 10 / 10) + [DigitChar(n / 10 % 10)] + [DigitChar(n % 10)];
      Decimal(n / 10 / 10 / 10) + [DigitChar(n / 10 / 10 % 10)] + [DigitChar(n / 10 % 10)] + [DigitChar(n % 10)];
      Decimal(n / 1000) + Pad3(r);
    }
  }

  /** Removing the separators from the grouped numeral gives the plain numeral back. */
  lemma {:induction false} GroupedWithoutCommas(n: nat)
    ensures WithoutCommas(Grouped(n)) == Decimal(n)
    decreases n
  {
    if n < 1000 {
      WithoutCommasOfDigits(Decimal(n));
    } else {
      GroupedWithoutCommas(n / 1000);
      WithoutCommasAppend(Grouped(n / 1000) + ",", Pad3(n % 1000));
      WithoutCommasAppend(Grouped(n / 1000), ",");
      WithoutCommasOfDigits(Pad3(n % 1000));
      DecimalSplit(n);
    }
  }

  /** The separators stand exactly at the positions a multiple of four from the end, so the
      leading group has one to three digits and every later group exactly three; every other
      character is a digit. */
  ghost predicate GroupedInThrees(g: string) {
    |g| % 4 != 0 &&
    forall i :: 0 <= i < |g| ==> (g[i] == ',' <==> (|g| - i) % 4 == 0) && (g[i] != ',' ==> IsDigit(g[i]))
  }

  lemma ShortDecimal(n: nat)
    requires n < 1000
    ensures |Decimal(n)| <= 3
  {
    if n >= 10 {
      ShortDecimal(n / 10);
    }
  }

  lemma AppendGroup(h: string, p: string)
    requires GroupedInThrees(h)
    requires |p| == 3 && forall i :: 0 <= i < 3 ==> IsDigit(p[i])
    ensures GroupedInThrees(h + "," + p)
  {
    var g := h + "," + p;
    forall i | 0 <= i < |g|
      ensures (g[i] == ',' <==> (|g| - i) % 4 == 0) && (g[i] != ',' ==> IsDigit(g[i]))
    {
      if i < |h| {
        assert g[i] == h[i];
        assert |g| - i == (|h| - i) + 4;
      } else if i > |h| {
        assert g[i] == p[i - |h| - 1];
      }
    }
  }

  lemma {:induction false} GroupedShape(n: nat)
    ensures GroupedInThrees(Grouped(n))
    decreases n
  {
    if n < 1000 {
      ShortDecimal(n);
    } else {
      GroupedShape(n / 1000);
      AppendGroup(Grouped(n / 1000), Pad3(n % 1000));
    }
  }

  /** `format()`: the yen sign and the grouped amount for JPY, otherwise the code, a space and
      the grouped amount. */
  function Format(m: Money): (r: string)
    ensures m.currency == JPY ==> |r| >= 1 && r[0] == '¥' && WithoutCommas(r[1..]) == Decimal(m.amount)
    ensures m.currency != JPY ==> |r| >= 4 && r[..4] == m.currency + " " && WithoutCommas(r[4..]) == Decimal(m.amount)
    ensures m.currency == JPY ==> GroupedInThrees(r[1..])
    ensures m.currency != JPY ==> GroupedInThrees(r[4..])
  {
    GroupedWithoutCommas(m.amount);
    GroupedShape(m.amount);
    var digits := Grouped(m.amount);
    if m.currency == JPY then
      assert ("¥" + digits)[1..] == digits;
      "¥" + digits
    else
      assert (m.currency + " " + digits)[4..] == digits;
      m.currency + " " + digits
  }

  lemma FormatExamples()
    ensures Format(MoneyFields(1000, JPY)) == "¥1,000"
    ensures Format(MoneyFields(1000, "USD")) == "USD 1,000"
  {
    GroupedThousand();
  }

  lemma GroupedThousand()
    ensures Grouped(1000) == "1,000"
  {
    assert Grouped(1) == "1";
    assert Pad3(0) == "000";
  }
}
