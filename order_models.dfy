/**
 * The order tables (backend/apps/orders/models.py): the five statuses, an
 * order item's price snapshot and line total, the order total, and the order
 * number `ORD-<yyyymmdd>-<8 upper-case hex digits>` that `save` fills in
 * once. The clock and the random UUID are parameters.
 */
module OrderModels {
  import opened Wrappers
  import opened Catalog

  type UserId = string

  /** `Order.Status`; `Placed` is the default. */
  datatype OrderStatus = Placed | Paid | Processing | Shipped | Delivered

  const DefaultStatus: OrderStatus := Placed

  function StatusValue(s: OrderStatus): string {
    match s
    case Placed => "PLACED"
    case Paid => "PAID"
    case Processing => "PROCESSING"
    case Shipped => "SHIPPED"
    case Delivered => "DELIVERED"
  }

  /** The stored value names the status it came from. */
  lemma {:induction false} StatusValueInjective(a: OrderStatus, b: OrderStatus)
    ensures StatusValue(a) == StatusValue(b) ==> a == b
  {
    if StatusValue(a) == StatusValue(b) {
      assert StatusValue(a)[1] == StatusValue(b)[1];
      assert StatusValue(a)[0] == StatusValue(b)[0];
    }
  }

  /** An `order_items` row; money in paise. */
  datatype OrderItem = OrderItem(product: ProductId, quantity: int, priceAtPurchase: int, lineTotal: int)

  /**
   * `OrderItem.save`: a falsy (missing or zero) `price_at_purchase` is filled
   * from the product's current price; the line total is then price times
   * quantity.
   */
  function SaveOrderItem(product: Product, quantity: int, priceAtPurchase: Option<int>): (r: OrderItem)
    ensures r.product == product.id && r.quantity == quantity
    ensures priceAtPurchase.Some? && priceAtPurchase.value != 0 ==> r.priceAtPurchase == priceAtPurchase.value
    ensures priceAtPurchase.None? || priceAtPurchase.value == 0 ==> r.priceAtPurchase == product.price
    ensures r.lineTotal == r.priceAtPurchase * r.quantity
  {
    var price := if priceAtPurchase.Some? && priceAtPurchase.value != 0 then priceAtPurchase.value else product.price;
    OrderItem(product.id, quantity, price, price * quantity)
  }

  /** The sum of the line totals. */
  function SumLines(items: seq<OrderItem>): int {
    if items == [] then 0 else SumLines(items[..|items| - 1]) + items[|items| - 1].lineTotal
  }

  lemma {:induction false} SumLinesAppend(a: seq<OrderItem>, b: seq<OrderItem>)
    ensures SumLines(a + b) == SumLines(a) + SumLines(b)
    decreases |b|
  {
    if b != [] {
      var last := |b| - 1;
      assert (a + b)[..|a + b| - 1] == a + b[..last];
      assert (a + b)[|a + b| - 1] == b[last];
      SumLinesAppend(a, b[..last]);
    } else {
      assert a + b == a;
    }
  }

  /** Every line total is non-negative when every price and quantity is. */
  lemma {:induction false} SumLinesNonNegative(items: seq<OrderItem>)
    requires forall i :: 0 <= i < |items| ==> items[i].lineTotal >= 0
    ensures SumLines(items) >= 0
  {
    if items != [] { SumLinesNonNegative(items[..|items| - 1]); }
  }

  /** The parts of a calendar date; `timezone.now()` only gives valid ones. */
  datatype DateParts = DateParts(year: int, month: int, day: int)

  predicate IsLeap(y: int) {
    (y % 4 == 0 && y % 100 != 0) || y % 400 == 0
  }

  function DaysInMonth(y: int, m: int): int {
    if m == 2 then (if IsLeap(y) then 29 else 28)
    else if m == 4 || m == 6 || m == 9 || m == 11 then 30
    else 31
  }

  predicate ValidDate(d: DateParts) {
    1 <= d.year <= 9999 && 1 <= d.month <= 12 && 1 <= d.day <= DaysInMonth(d.year, d.month)
  }

  type Date = d: DateParts | ValidDate(d) witness DateParts(2000, 1, 1)

  type Nibble = n: nat | n < 16

  /** A UUID as its 32 hexadecimal digits. */
  type Uuid = s: seq<Nibble> | |s| == 32 witness seq(32, _ => 0)

  function DigitChar(d: nat): (c: char)
    requires d < 10
    ensures '0' <= c <= '9'
  {
    ('0' as int + d) as char
  }

  function DigitValue(c: char): (d: nat)
    requires '0' <= c <= '9'
    ensures d < 10 && DigitChar(d) == c
  {
    c as int - '0' as int
  }

  /** The decimal digits of `n` with no padding. */
  function Decimal(n: nat): (r: string)
    ensures |r| >= 1
    ensures forall i :: 0 <= i < |r| ==> '0' <= r[i] <= '9'
  {
    if n < 10 then [DigitChar(n)] else Decimal(n / 10) + [DigitChar(n % 10)]
  }

  /** Two decimal digits, zero-padded. */
  function Pad2(n: nat): (r: string)
    requires n < 100
    ensures |r| == 2 && '0' <= r[0] <= '9' && '0' <= r[1] <= '9'
  {
    [DigitChar(n / 10), DigitChar(n % 10)]
  }

  /** `strftime('%Y%m%d')`; the year is written without padding, as the C library does. */
  function FormatDate(d: Date): (r: string)
    ensures |r| >= 5
    ensures forall i :: 0 <= i < |r| ==> '0' <= r[i] <= '9'
  {
    Decimal(d.year) + Pad2(d.month) + Pad2(d.day)
  }

  /** `str(uuid)[:8].upper()`: the first eight digits in upper case. */
  function HexUpper(n: Nibble): (c: char)
    ensures ('0' <= c <= '9') || ('A' <= c <= 'F')
  {
    if n < 10 then DigitChar(n) else ('A' as int + n - 10) as char
  }

  function HexValue(c: char): (n: Nibble)
    requires ('0' <= c <= '9') || ('A' <= c <= 'F')
    ensures HexUpper(n) == c
  {
    if c <= '9' then DigitValue(c) else c as int - 'A' as int + 10
  }

  function UuidPrefix(u: Uuid): (r: string)
    ensures |r| == 8
    ensures forall i :: 0 <= i < 8 ==> r[i] == HexUpper(u[i])
  {
    seq(8, i requires 0 <= i < 8 => HexUpper(u[i]))
  }

  /** The number `generate_order_number` composes from the date and the UUID. */
  function ComposeOrderNumber(today: Date, u: Uuid): (r: string)
    ensures |r| == |FormatDate(today)| + 13
    ensures r[..4] == "ORD-" && r[|r| - 9] == '-'
    ensures r[4..|r| - 9] == FormatDate(today) && r[|r| - 8..] == UuidPrefix(u)
  {
    "ORD-" + FormatDate(today) + "-" + UuidPrefix(u)
  }

  predicate IsDigit(c: char) {
    '0' <= c <= '9'
  }

  predicate IsUpperHex(c: char) {
    IsDigit(c) || ('A' <= c <= 'F')
  }

  /** `ORD-`, eight digits, `-`, eight upper-case hexadecimal digits. */
  predicate WellFormedOrderNumber(s: string) {
    |s| == 21 && s[..4] == "ORD-" && s[12] == '-'
    && (forall i :: 4 <= i < 12 ==> IsDigit(s[i]))
    && (forall i :: 13 <= i < 21 ==> IsUpperHex(s[i]))
  }

  /** A four-digit year's decimal form, digit by digit. */
  lemma {:induction false} DecimalOfFourDigits(n: nat)
    requires 1000 <= n <= 9999
    ensures Decimal(n) == [DigitChar(n / 1000), DigitChar(n / 100 % 10), DigitChar(n / 10 % 10), DigitChar(n % 10)]
  {
    var a := n / 10;
    var b := a / 10;
    var c := b / 10;
    DivTens(n);
    assert Decimal(c) == [DigitChar(c)];
    assert Decimal(b) == Decimal(c) + [DigitChar(b % 10)];
    assert Decimal(a) == Decimal(b) + [DigitChar(a % 10)];
  }

  /** Dropping decimal digits one at a time from a four-digit number. */
  lemma DivTens(n: nat)
    requires 1000 <= n <= 9999
    ensures 100 <= n / 10 <= 999 && 10 <= n / 10 / 10 <= 99 && 1 <= n / 10 / 10 / 10 <= 9
    ensures n / 10 / 10 == n / 100 && n / 10 / 10 / 10 == n / 1000
    ensures n == n / 1000 * 1000 + n / 100 % 10 * 100 + n / 10 % 10 * 10 + n % 10
  {
    var a := n / 10;
    assert n == a * 10 + n % 10;
    var b := a / 10;
    assert a == b * 10 + a % 10;
    var c := b / 10;
    assert b == c * 10 + b % 10;
    assert n == c * 1000 + b % 10 * 100 + a % 10 * 10 + n % 10;
  }

  /** Every date from the year 1000 on gives a well-formed number. */
  lemma {:induction false} ComposedIsWellFormed(today: Date, u: Uuid)
    requires today.year >= 1000
    ensures WellFormedOrderNumber(ComposeOrderNumber(today, u))
  {
    DecimalOfFourDigits(today.year);
    var s := ComposeOrderNumber(today, u);
    var date := FormatDate(today);
    assert |date| == 8;
    assert s == "ORD-" + date + "-" + UuidPrefix(u);
    assert s[..4] == "ORD-";
    assert forall i :: 4 <= i < 12 ==> s[i] == date[i - 4];
    assert forall i :: 13 <= i < 21 ==> s[i] == UuidPrefix(u)[i - 13];
  }

  lemma ComposedWellFormedFrom1000(today: Date, u: Uuid)
    ensures today.year >= 1000 ==> WellFormedOrderNumber(ComposeOrderNumber(today, u))
  {
    if today.year >= 1000 { ComposedIsWellFormed(today, u); }
  }

  /** The date and the UUID digits a well-formed number was composed from. */
  datatype NumberParts = NumberParts(year: nat, month: nat, day: nat, prefix: seq<Nibble>)

  function DecodeOrderNumber(s: string): (r: Option<NumberParts>)
    ensures r.Some? ==> WellFormedOrderNumber(s)
  {
    if !WellFormedOrderNumber(s) then None
    else
      Some(NumberParts(
        DigitValue(s[4]) * 1000 + DigitValue(s[5]) * 100 + DigitValue(s[6]) * 10 + DigitValue(s[7]),
        DigitValue(s[8]) * 10 + DigitValue(s[9]),
        DigitValue(s[10]) * 10 + DigitValue(s[11]),
        seq(8, i requires 0 <= i < 8 => HexValue(s[13 + i]))))
  }

  lemma DigitRoundTrip(d: nat)
    requires d < 10
    ensures DigitValue(DigitChar(d)) == d
  {
  }

  lemma HexRoundTrip(n: Nibble)
    ensures HexValue(HexUpper(n)) == n
  {
  }

  /** The characters of a composed number, position by position. */
  lemma {:induction false} ComposedChars(today: Date, u: Uuid)
    requires today.year >= 1000
    ensures var s := ComposeOrderNumber(today, u); var y := today.year;
      |s| == 21
      && s[4] == DigitChar(y / 1000) && s[5] == DigitChar(y / 100 % 10)
      && s[6] == DigitChar(y / 10 % 10) && s[7] == DigitChar(y % 10)
      && s[8] == DigitChar(today.month / 10) && s[9] == DigitChar(today.month % 10)
      && s[10] == DigitChar(today.day / 10) && s[11] == DigitChar(today.day % 10)
      && forall i :: 0 <= i < 8 ==> s[13 + i] == HexUpper(u[i])
  {
    DecimalOfFourDigits(today.year);
    var s := ComposeOrderNumber(today, u);
    var date := FormatDate(today);
    assert s == "ORD-" + date + "-" + UuidPrefix(u);
    assert forall i :: 0 <= i < 8 ==> s[4 + i] == date[i];
    assert forall i :: 0 <= i < 8 ==> s[13 + i] == UuidPrefix(u)[i];
  }

  lemma {:induction false} DecodeComposeYear(today: Date, u: Uuid)
    requires today.year >= 1000
    ensures DecodeOrderNumber(ComposeOrderNumber(today, u)).Some?
    ensures DecodeOrderNumber(ComposeOrderNumber(today, u)).value.year == today.year
  {
    ComposedIsWellFormed(today, u);
    ComposedChars(today, u);
    var y := today.year;
    DivTens(y);
    DigitRoundTrip(y / 1000);
    DigitRoundTrip(y / 100 % 10);
    DigitRoundTrip(y / 10 % 10);
    DigitRoundTrip(y % 10);
  }

  lemma {:induction false} DecodeComposeMonthDay(today: Date, u: Uuid)
    requires today.year >= 1000
    ensures DecodeOrderNumber(ComposeOrderNumber(today, u)).Some?
    ensures DecodeOrderNumber(ComposeOrderNumber(today, u)).value.month == today.month
    ensures DecodeOrderNumber(ComposeOrderNumber(today, u)).value.day == today.day
  {
    ComposedIsWellFormed(today, u);
    ComposedChars(today, u);
    DigitRoundTrip(today.month / 10);
    DigitRoundTrip(today.month % 10);
    DigitRoundTrip(today.day / 10);
    DigitRoundTrip(today.day % 10);
  }

  lemma {:induction false} DecodeComposePrefix(today: Date, u: Uuid)
    requires today.year >= 1000
    ensures DecodeOrderNumber(ComposeOrderNumber(today, u)).Some?
    ensures DecodeOrderNumber(ComposeOrderNumber(today, u)).value.prefix == u[..8]
  {
    ComposedIsWellFormed(today, u);
    ComposedChars(today, u);
    var s := ComposeOrderNumber(today, u);
    var prefix := DecodeOrderNumber(s).value.prefix;
    assert |prefix| == 8;
    forall i | 0 <= i < 8 ensures prefix[i] == u[i] {
      HexRoundTrip(u[i]);
    }
  }

  /** Decoding a composed number gives back the date and the first eight UUID digits. */
  lemma {:induction false} DecodeCompose(today: Date, u: Uuid)
    requires today.year >= 1000
    ensures DecodeOrderNumber(ComposeOrderNumber(today, u))
      == Some(NumberParts(today.year, today.month, today.day, u[..8]))
  {
    DecodeComposeYear(today, u);
    DecodeComposeMonthDay(today, u);
    DecodeComposePrefix(today, u);
  }

  /** Two orders numbered on different days, or from UUIDs differing in their first eight digits, get different numbers. */
  lemma {:induction false} ComposeInjective(d1: Date, u1: Uuid, d2: Date, u2: Uuid)
    requires d1.year >= 1000 && d2.year >= 1000
    requires ComposeOrderNumber(d1, u1) == ComposeOrderNumber(d2, u2)
    ensures d1 == d2 && u1[..8] == u2[..8]
  {
    DecodeCompose(d1, u1);
    DecodeCompose(d2, u2);
  }

  /** `generate_order_number`: a number already set is kept, otherwise one is composed. */
  function GenerateOrderNumber(current: string, today: Date, u: Uuid): (r: string)
    ensures current != "" ==> r == current
    ensures current == "" && today.year >= 1000 ==> WellFormedOrderNumber(r)
    ensures r != ""
  {
    if current == "" then
      ComposedWellFormedFrom1000(today, u);
      ComposeOrderNumber(today, u)
    else current
  }

  /** Once set, the number survives any later call, whatever the date and UUID. */
  lemma {:induction false} GenerateKeepsNumber(current: string, t1: Date, u1: Uuid, t2: Date, u2: Uuid)
    ensures GenerateOrderNumber(GenerateOrderNumber(current, t1, u1), t2, u2) == GenerateOrderNumber(current, t1, u1)
  {
  }

  /** An `orders` row with its items, in the order they were created. */
  datatype Order = Order(
    user: Option<UserId>,
    orderNumber: string,
    status: OrderStatus,
    customerName: string,
    customerEmail: string,
    customerPhone: string,
    shippingStreet: string,
    shippingCity: string,
    shippingState: string,
    shippingZipCode: string,
    shippingCountry: string,
    giftNote: Option<string>,
    deliveryDate: Option<Date>,
    items: seq<OrderItem>)

  /** `Order.get_total`; `or 0` is the empty sum. */
  function OrderTotal(o: Order): int {
    SumLines(o.items)
  }

  /** `Order.save`: the number is generated only when the order has none. */
  function SaveOrder(o: Order, today: Date, u: Uuid): (r: Order)
    ensures r == o.(orderNumber := r.orderNumber)
    ensures o.orderNumber != "" ==> r == o
    ensures o.orderNumber == "" && today.year >= 1000 ==> WellFormedOrderNumber(r.orderNumber)
  {
    o.(orderNumber := GenerateOrderNumber(o.orderNumber, today, u))
  }
}
