/**
 * Order creation (backend/apps/orders/views.py, `create_order_view`): the
 * request is checked, then inside one transaction the order and one item per
 * requested entry are created and the caller's cart is emptied. Any failure
 * inside the transaction rolls all of it back, so the store and the cart are
 * written only once every step has succeeded.
 */
module OrderViews {
  import opened Wrappers
  import opened Text
  import opened Catalog
  import opened OrderModels
  import CartViews

  /** The `quantity` string of an item as `int()` reads it. */
  datatype ItemQuantity = QuantityAbsent | Numeral(n: int) | NotNumeral(text: string)

  /** One entry of `items`; `productId` is `None` when the key is left out. */
  datatype ItemRequest = ItemRequest(productId: Option<string>, quantity: ItemQuantity)

  /**
   * `deliveryPreferences.get('deliveryDate')` through `parse_date`: falsy, not
   * in the date format (`parse_date` gives `None`), a real day, or in the
   * format but not a real day (`parse_date` raises `ValueError`).
   */
  datatype DateParam = NoDate | Unrecognised | ValidDay(date: Date) | OutOfRange

  /** `deliveryPreferences`: left out (`{}` is used), JSON `null`, or given. */
  datatype Preferences = Omitted | NullPreferences | Given(giftNote: Option<string>, deliveryDate: DateParam)

  datatype OrderRequest = OrderRequest(
    items: seq<ItemRequest>,
    customer: map<string, string>,
    shipping: map<string, string>,
    preferences: Preferences)

  /** Every failure answers 400; the messages are those of `ErrorText`. */
  datatype OrderError =
    | BlankItemValue
    | EmptyItems
    | MissingCustomerDetails
    | MissingShippingAddress
    | PreferencesAreNull
    | InvalidDeliveryDate
    | DuplicateOrderNumber
    | InvalidQuantity(text: string)
    | ProductNotFound(productId: Option<string>)
    | NegativeQuantity

  function ErrorText(e: OrderError): (r: string)
    ensures r != ""
  {
    match e
    case BlankItemValue => "This field may not be blank."
    case EmptyItems => "Items array is required and must not be empty"
    case MissingCustomerDetails => "Customer details must include name, email, and phone"
    case MissingShippingAddress => "Shipping address must include street, city, state, zipCode, and country"
    case PreferencesAreNull => "Failed to create order: 'NoneType' object has no attribute 'get'"
    // `parse_date` raises a `ValueError` whose text depends on the field out of range; this is the one for the day.
    case InvalidDeliveryDate => "day is out of range for month"
    case DuplicateOrderNumber => "Failed to create order: duplicate key value violates unique constraint"
    case InvalidQuantity(text) => "invalid literal for int() with base 10: '" + text + "'"
    case ProductNotFound(id) => "Product with id " + (if id.Some? then id.value else "None") + " not found"
    case NegativeQuantity => "Failed to create order: new row violates check constraint"
  }

  /** What the serializer's `CharField` refuses: a string that is empty once surrounding whitespace is stripped. */
  predicate Blank(s: string) {
    PyStrip(s) == ""
  }

  /** Every value of an item dict is read by a `CharField`; a missing key is no value to refuse. */
  predicate ItemAccepted(item: ItemRequest) {
    && (item.productId.Some? ==> !Blank(item.productId.value))
    && (item.quantity.NotNumeral? ==> !Blank(item.quantity.text))
  }

  /** `CreateOrderSerializer.is_valid` on `items`. */
  predicate ItemsAccepted(items: seq<ItemRequest>) {
    forall i :: 0 <= i < |items| ==> ItemAccepted(items[i])
  }

  /** Only the presence of the keys is checked, not their values. */
  predicate CustomerComplete(customer: map<string, string>) {
    "name" in customer && "email" in customer && "phone" in customer
  }

  predicate ShippingComplete(shipping: map<string, string>) {
    "street" in shipping && "city" in shipping && "state" in shipping && "zipCode" in shipping && "country" in shipping
  }

  /** `int(item_data.get('quantity', 1))`. */
  function QuantityOf(q: ItemQuantity): (r: Result<int, OrderError>)
    ensures q.QuantityAbsent? ==> r == Ok(1)
    ensures q.Numeral? ==> r == Ok(q.n)
    ensures q.NotNumeral? ==> r == Err(InvalidQuantity(q.text))
  {
    match q
    case QuantityAbsent => Ok(1)
    case Numeral(n) => Ok(n)
    case NotNumeral(text) => Err(InvalidQuantity(text))
  }

  /** `Product.objects.get(id=product_id, is_available=True)`; a missing id matches nothing. */
  function RequestedProduct(products: ProductTable, id: Option<string>): (r: Option<Product>)
    ensures r.Some? <==> id.Some? && id.value in products && products[id.value].isAvailable
    ensures r.Some? ==> r.value == products[id.value]
  {
    if id.Some? then LookupAvailable(products, id.value) else None
  }

  /**
   * One pass of the item loop: the quantity is parsed, the product looked up,
   * and the row created with the product's price as its snapshot; the
   * database refuses a negative quantity.
   */
  function PlanItem(req: ItemRequest, products: ProductTable): (r: Result<OrderItem, OrderError>)
    requires WellKeyed(products)
    ensures r.Ok? <==>
      QuantityOf(req.quantity).Ok? && RequestedProduct(products, req.productId).Some? && QuantityOf(req.quantity).value >= 0
    ensures QuantityOf(req.quantity).Err? ==> r == Err(QuantityOf(req.quantity).error)
    ensures QuantityOf(req.quantity).Ok? && RequestedProduct(products, req.productId).None? ==>
      r == Err(ProductNotFound(req.productId))
    ensures (QuantityOf(req.quantity).Ok? && RequestedProduct(products, req.productId).Some?
             && QuantityOf(req.quantity).value < 0) ==> r == Err(NegativeQuantity)
    ensures r.Ok? ==>
      var p := products[req.productId.value];
      && r.value.product == req.productId.value
      && r.value.quantity == QuantityOf(req.quantity).value
      && r.value.priceAtPurchase == p.price
      && r.value.lineTotal == p.price * r.value.quantity
  {
    match QuantityOf(req.quantity)
    case Err(e) => Err(e)
    case Ok(q) =>
      match RequestedProduct(products, req.productId)
      case None => Err(ProductNotFound(req.productId))
      case Some(p) =>
        if q < 0 then Err(NegativeQuantity)
        else
          var item := SaveOrderItem(p, q, Some(p.price));
          assert p.price == 0 ==> item.priceAtPurchase == p.price;
          Ok(item)
  }

  /** The whole item loop: the rows in request order, or the error of the first entry that fails. */
  function PlanItems(reqs: seq<ItemRequest>, products: ProductTable): (r: Result<seq<OrderItem>, OrderError>)
    requires WellKeyed(products)
    ensures r.Ok? <==> forall i :: 0 <= i < |reqs| ==> PlanItem(reqs[i], products).Ok?
    ensures r.Ok? ==> |r.value| == |reqs| && forall i :: 0 <= i < |reqs| ==> r.value[i] == PlanItem(reqs[i], products).value
    ensures r.Err? ==> r.error.InvalidQuantity? || r.error.ProductNotFound? || r.error == NegativeQuantity
  {
    if reqs == [] then Ok([])
    else
      var last := |reqs| - 1;
      var prefix := reqs[..last];
      assert forall i :: 0 <= i < last ==> prefix[i] == reqs[i];
      match PlanItems(prefix, products)
      case Err(e) => Err(e)
      case Ok(done) =>
        match PlanItem(reqs[last], products)
        case Err(e) => Err(e)
        case Ok(item) => Ok(done + [item])
  }

  /** A failed plan reports the error of the first entry that fails. */
  lemma {:induction false} PlanItemsFirstError(reqs: seq<ItemRequest>, products: ProductTable) returns (i: nat)
    requires WellKeyed(products) && PlanItems(reqs, products).Err?
    ensures i < |reqs| && PlanItem(reqs[i], products) == Err(PlanItems(reqs, products).error)
    ensures forall j :: 0 <= j < i ==> PlanItem(reqs[j], products).Ok?
  {
    var last := |reqs| - 1;
    var prefix := reqs[..last];
    assert forall j :: 0 <= j < last ==> prefix[j] == reqs[j];
    if PlanItems(prefix, products).Err? {
      i := PlanItemsFirstError(prefix, products);
    } else {
      i := last;
    }
  }

  /** Once the entries before `k` fail, the later entries do not matter. */
  lemma {:induction false} PlanItemsKeepsFirstError(reqs: seq<ItemRequest>, products: ProductTable, k: nat)
    requires WellKeyed(products) && k <= |reqs|
    requires PlanItems(reqs[..k], products).Err?
    ensures PlanItems(reqs, products) == PlanItems(reqs[..k], products)
    decreases |reqs| - k
  {
    if k < |reqs| {
      var next := reqs[..k + 1];
      assert next[..k] == reqs[..k];
      assert PlanItems(next, products) == PlanItems(reqs[..k], products);
      PlanItemsKeepsFirstError(reqs, products, k + 1);
    } else {
      assert reqs[..k] == reqs;
    }
  }

  /**
   * The loop of `create_order_view` over the requested entries: the order
   * items in request order, or the error of the first entry that fails.
   */
  method BuildItems(reqs: seq<ItemRequest>, products: ProductTable) returns (r: Result<seq<OrderItem>, OrderError>)
    requires WellKeyed(products)
    ensures r == PlanItems(reqs, products)
  {
    var items: seq<OrderItem> := [];
    var i := 0;
    while i < |reqs|
      invariant 0 <= i <= |reqs|
      invariant PlanItems(reqs[..i], products) == Ok(items)
    {
      var entry := reqs[i];
      var quantity := QuantityOf(entry.quantity);
      if quantity.Err? {
        assert reqs[..i + 1][..i] == reqs[..i];
        PlanItemsKeepsFirstError(reqs, products, i + 1);
        return Err(quantity.error);
      }
      var product := RequestedProduct(products, entry.productId);
      if product.None? {
        assert reqs[..i + 1][..i] == reqs[..i];
        PlanItemsKeepsFirstError(reqs, products, i + 1);
        return Err(ProductNotFound(entry.productId));
      }
      if quantity.value < 0 {
        assert reqs[..i + 1][..i] == reqs[..i];
        PlanItemsKeepsFirstError(reqs, products, i + 1);
        return Err(NegativeQuantity);
      }
      var p := product.value;
      items := items + [SaveOrderItem(p, quantity.value, Some(p.price))];
      assert reqs[..i + 1][..i] == reqs[..i];
      i := i + 1;
    }
    assert reqs[..i] == reqs;
    r := Ok(items);
  }

  /** The gift note and the delivery date, or the error evaluating them raises. */
  function Delivery(prefs: Preferences): (r: Result<(Option<string>, Option<Date>), OrderError>)
    ensures r == Err(PreferencesAreNull) <==> prefs.NullPreferences?
    ensures r == Err(InvalidDeliveryDate) <==> prefs.Given? && prefs.deliveryDate.OutOfRange?
    ensures r.Ok? && prefs.Given? ==> r.value.0 == prefs.giftNote
    ensures r.Ok? ==> (r.value.1.Some? <==> prefs.Given? && prefs.deliveryDate.ValidDay?)
    ensures r.Ok? && r.value.1.Some? ==> r.value.1.value == prefs.deliveryDate.date
    ensures prefs.Omitted? ==> r == Ok((None, None))
  {
    match prefs
    case Omitted => Ok((None, None))
    case NullPreferences => Err(PreferencesAreNull)
    case Given(note, date) =>
      match date
      case NoDate => Ok((note, None))
      case Unrecognised => Ok((note, None))
      case ValidDay(d) => Ok((note, Some(d)))
      case OutOfRange => Err(InvalidDeliveryDate)
  }

  /**
   * The order row `Order.objects.create` is given, before `save` numbers it.
   * The `India` default of the country cannot apply: the key is required.
   */
  function OrderHeader(user: UserId, req: OrderRequest, giftNote: Option<string>, date: Option<Date>): Order
    requires CustomerComplete(req.customer) && ShippingComplete(req.shipping)
  {
    Order(Some(user), "", DefaultStatus,
      req.customer["name"], req.customer["email"], req.customer["phone"],
      req.shipping["street"], req.shipping["city"], req.shipping["state"], req.shipping["zipCode"],
      if "country" in req.shipping then req.shipping["country"] else "India",
      giftNote, date, [])
  }

  /**
   * What `create_order_view` stores, or why it answers 400. `taken` is the set
   * of order numbers already in use.
   */
  function CreateOutcome(user: UserId, req: OrderRequest, products: ProductTable, taken: set<string>,
                         today: Date, u: Uuid): (r: Result<Order, OrderError>)
    requires WellKeyed(products)
    ensures r == Err(BlankItemValue) <==> !ItemsAccepted(req.items)
    ensures r == Err(EmptyItems) <==> req.items == []
    ensures r == Err(MissingCustomerDetails) <==> ItemsAccepted(req.items) && req.items != [] && !CustomerComplete(req.customer)
    ensures r == Err(MissingShippingAddress) <==>
      ItemsAccepted(req.items) && req.items != [] && CustomerComplete(req.customer) && !ShippingComplete(req.shipping)
    ensures ItemsAccepted(req.items) && req.items != [] && CustomerComplete(req.customer) && ShippingComplete(req.shipping) ==>
      (Delivery(req.preferences).Err? ==> r == Err(Delivery(req.preferences).error))
      && (Delivery(req.preferences).Ok? && ComposeOrderNumber(today, u) in taken ==> r == Err(DuplicateOrderNumber))
      && (Delivery(req.preferences).Ok? && ComposeOrderNumber(today, u) !in taken ==>
            (r.Err? <==> PlanItems(req.items, products).Err?)
            && (r.Err? ==> r.error == PlanItems(req.items, products).error))
    ensures r.Ok? ==>
      && ItemsAccepted(req.items)
      && Delivery(req.preferences).Ok?
      && r.value.user == Some(user)
      && r.value.status == Placed
      && r.value.orderNumber == ComposeOrderNumber(today, u)
      && r.value.orderNumber !in taken
      && (today.year >= 1000 ==> WellFormedOrderNumber(r.value.orderNumber))
      && r.value.items == PlanItems(req.items, products).value
      && r.value.customerName == req.customer["name"]
      && r.value.customerEmail == req.customer["email"]
      && r.value.customerPhone == req.customer["phone"]
      && r.value.shippingStreet == req.shipping["street"]
      && r.value.shippingCity == req.shipping["city"]
      && r.value.shippingState == req.shipping["state"]
      && r.value.shippingZipCode == req.shipping["zipCode"]
      && r.value.shippingCountry == req.shipping["country"]
      && r.value.giftNote == Delivery(req.preferences).value.0
      && r.value.deliveryDate == Delivery(req.preferences).value.1
  {
    if !ItemsAccepted(req.items) then Err(BlankItemValue)
    else if req.items == [] then Err(EmptyItems)
    else if !CustomerComplete(req.customer) then Err(MissingCustomerDetails)
    else if !ShippingComplete(req.shipping) then Err(MissingShippingAddress)
    else
      match Delivery(req.preferences)
      case Err(e) => Err(e)
      case Ok((note, date)) =>
        var order := SaveOrder(OrderHeader(user, req, note, date), today, u);
        if order.orderNumber in taken then Err(DuplicateOrderNumber)
        else
          match PlanItems(req.items, products)
          case Err(e) => Err(e)
          case Ok(items) => Ok(order.(items := items))
  }

  /** An order holds one row per requested entry, each priced at the product's price when ordered. */
  lemma {:induction false} OrderSnapshotsPrices(user: UserId, req: OrderRequest, products: ProductTable,
                                                taken: set<string>, today: Date, u: Uuid, i: nat)
    requires WellKeyed(products)
    requires CreateOutcome(user, req, products, taken, today, u).Ok?
    requires i < |req.items|
    ensures var o := CreateOutcome(user, req, products, taken, today, u).value;
      |o.items| == |req.items|
      && req.items[i].productId.Some? && req.items[i].productId.value in products
      && products[req.items[i].productId.value].isAvailable
      && o.items[i].product == req.items[i].productId.value
      && o.items[i].priceAtPurchase == products[o.items[i].product].price
      && (req.items[i].quantity.QuantityAbsent? ==> o.items[i].quantity == 1)
      && OrderTotal(o) == SumLines(o.items)
  {
    var o := CreateOutcome(user, req, products, taken, today, u).value;
    assert PlanItem(req.items[i], products).Ok?;
  }

  /** A request naming an unavailable product creates no order. */
  lemma {:induction false} UnavailableProductRejects(user: UserId, req: OrderRequest, products: ProductTable,
                                                     taken: set<string>, today: Date, u: Uuid, i: nat)
    requires WellKeyed(products)
    requires i < |req.items| && req.items[i].productId.Some?
    requires req.items[i].productId.value in products && !products[req.items[i].productId.value].isAvailable
    ensures CreateOutcome(user, req, products, taken, today, u).Err?
  {
    assert PlanItem(req.items[i], products).Err?;
    assert PlanItems(req.items, products).Err?;
  }

  type OrderId = nat

  /** The orders table. */
  class OrderStore {
    var orders: map<OrderId, Order>
    var nextOrder: nat

    /** Ids below the counter and no order number used twice. */
    ghost predicate Valid()
      reads this
    {
      (forall id :: id in orders ==> id < nextOrder)
      && (forall i, j :: i in orders && j in orders && i != j ==> orders[i].orderNumber != orders[j].orderNumber)
    }

    constructor ()
      ensures Valid() && orders == map[] && nextOrder == 0
    {
      orders := map[];
      nextOrder := 0;
    }

    function NumbersInUse(): set<string>
      reads this
    {
      set id | id in orders :: orders[id].orderNumber
    }

    /** Saves `order` under the next free id; its number must not be in use. */
    method Place(order: Order) returns (id: OrderId)
      requires Valid() && order.orderNumber !in NumbersInUse()
      modifies this
      ensures Valid()
      ensures id == old(nextOrder) && orders == old(orders)[id := order] && nextOrder == id + 1
    {
      id := nextOrder;
      orders := orders[id := order];
      nextOrder := nextOrder + 1;
    }

    /** `create_order_view` for the signed-in `user`, on the day `today`, with `u` as the fresh UUID. */
    method CreateOrder(user: UserId, req: OrderRequest, products: ProductTable, cart: CartViews.CartStore,
                       today: Date, u: Uuid) returns (r: Result<OrderId, OrderError>)
      requires Valid() && cart.Valid() && WellKeyed(products)
      modifies this, cart
      ensures Valid() && cart.Valid()
      ensures var outcome := CreateOutcome(user, req, products, old(NumbersInUse()), today, u);
        && (r.Ok? <==> outcome.Ok?)
        && (r.Err? ==> r.error == outcome.error)
        && (r.Ok? ==> r.value == old(nextOrder) && orders == old(orders)[r.value := outcome.value])
      ensures r.Ok? ==> nextOrder == old(nextOrder) + 1
      ensures r.Err? ==> orders == old(orders) && nextOrder == old(nextOrder) && cart.items == old(cart.items)
      ensures cart.carts == old(cart.carts) && cart.nextCart == old(cart.nextCart) && cart.nextItem == old(cart.nextItem)
      ensures r.Ok? && user in cart.carts ==>
        forall id :: id in cart.items <==> id in old(cart.items) && old(cart.items)[id].cart != cart.carts[user]
      ensures r.Ok? && user !in cart.carts ==> cart.items == old(cart.items)
      ensures forall id :: id in cart.items ==> cart.items[id] == old(cart.items)[id]
    {
      if !ItemsAccepted(req.items) {
        return Err(BlankItemValue);
      }
      if req.items == [] {
        return Err(EmptyItems);
      }
      if !CustomerComplete(req.customer) {
        return Err(MissingCustomerDetails);
      }
      if !ShippingComplete(req.shipping) {
        return Err(MissingShippingAddress);
      }
      var delivery := Delivery(req.preferences);
      if delivery.Err? {
        return Err(delivery.error);
      }
      var (giftNote, deliveryDate) := delivery.value;
      var order := SaveOrder(OrderHeader(user, req, giftNote, deliveryDate), today, u);
      if order.orderNumber in NumbersInUse() {
        return Err(DuplicateOrderNumber);
      }
      var planned := BuildItems(req.items, products);
      if planned.Err? {
        return Err(planned.error);
      }
      var items := planned.value;
      var id := Place(order.(items := items));
      cart.ClearCartOf(user);
      r := Ok(id);
    }
  }
}
