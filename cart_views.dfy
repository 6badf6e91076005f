/**
 * The cart endpoints (backend/apps/cart/views.py) over the cart tables: each
 * user's one cart, created on first use, and its items, at most one per
 * product. The product table is a parameter of each call.
 */
module CartViews {
  import opened Wrappers
  import opened Catalog
  import opened CartModels

  /** The JSON value of `quantity` in a request body. */
  datatype Quantity = Absent | Null | Number(n: int)

  datatype CartError = InvalidAddRequest | ProductNotFound | InvalidQuantity | ItemNotFound

  function ErrorText(e: CartError): (r: string)
    ensures r != ""
  {
    match e
    case InvalidAddRequest => "Invalid request. productId and quantity (positive number) are required."
    case ProductNotFound => "Product not found"
    case InvalidQuantity => "Quantity must be a positive number"
    case ItemNotFound => "Not found."
  }

  function HttpStatus(e: CartError): nat {
    match e
    case InvalidAddRequest => 400
    case InvalidQuantity => 400
    case ProductNotFound => 404
    case ItemNotFound => 404
  }

  /** `request.data.get('quantity', 1)` passed through `not quantity or quantity <= 0`. */
  function AddQuantity(q: Quantity): (r: Option<int>)
    ensures r.Some? ==> r.value >= 1
    ensures q.Absent? ==> r == Some(1)
    ensures q.Number? ==> (r.Some? <==> q.n > 0) && (r.Some? ==> r.value == q.n)
    ensures q.Null? ==> r.None?
  {
    match q
    case Absent => Some(1)
    case Null => None
    case Number(n) => if n > 0 then Some(n) else None
  }

  /** `request.data.get('quantity')` passed through the same test: here a missing quantity is refused. */
  function UpdateQuantity(q: Quantity): (r: Option<int>)
    ensures r.Some? <==> q.Number? && q.n > 0
    ensures r.Some? ==> r.value == q.n
  {
    if q.Number? && q.n > 0 then Some(q.n) else None
  }

  predicate Truthy(s: Option<string>) {
    s.Some? && s.value != ""
  }

  /** The cart and cart-item tables. */
  class CartStore {
    var carts: map<UserId, CartId>
    var items: ItemTable
    var nextCart: nat
    var nextItem: nat

    /**
     * One cart per user and one user per cart; ids below their counters;
     * each item in an existing cart with a positive quantity; no two items
     * of a cart for the same product.
     */
    ghost predicate Valid()
      reads this
    {
      (forall u, v :: u in carts && v in carts && u != v ==> carts[u] != carts[v])
      && (forall u :: u in carts ==> carts[u] < nextCart)
      && (forall id :: id in items ==> id < nextItem && items[id].quantity >= 1 && items[id].cart in carts.Values)
      && OneRowPerProduct(items)
    }

    /** Every item's product is still in the product table (deleting a product deletes its items). */
    ghost predicate Linked(products: ProductTable)
      reads this
    {
      forall id :: id in items ==> items[id].product in products
    }

    constructor ()
      ensures Valid()
      ensures carts == map[] && items == map[] && nextCart == 0 && nextItem == 0
    {
      carts := map[];
      items := map[];
      nextCart := 0;
      nextItem := 0;
    }

    /** The carts after `get_or_create_cart(user)` ran on `before`, whose next cart id was `next`. */
    ghost predicate CartOfUserReady(user: UserId, before: map<UserId, CartId>, next: nat)
      reads this
    {
      user in carts
      && (user in before ==> carts == before && nextCart == next)
      && (user !in before ==> carts == before[user := next] && nextCart == next + 1)
    }

    /** The stored total of `cart`. */
    function Total(cart: CartId): int
      reads this
    {
      CartTotal(items, cart, nextItem)
    }

    /** `get_or_create_cart`: the user's cart, or a new empty one. */
    method GetOrCreateCart(user: UserId) returns (cart: CartId)
      requires Valid()
      modifies this
      ensures Valid()
      ensures user in carts && carts[user] == cart
      ensures user in old(carts) ==> cart == old(carts[user]) && carts == old(carts) && nextCart == old(nextCart)
      ensures user !in old(carts) ==>
        cart == old(nextCart) && carts == old(carts)[user := cart] && nextCart == old(nextCart) + 1
      ensures user !in old(carts) ==> forall id :: id in items ==> items[id].cart != cart
      ensures items == old(items) && nextItem == old(nextItem)
    {
      if user in carts {
        cart := carts[user];
      } else {
        ghost var before := carts;
        cart := nextCart;
        carts := carts[user := cart];
        nextCart := nextCart + 1;
        forall id | id in items ensures items[id].cart in carts.Values {
          var u :| u in before && before[u] == items[id].cart;
          assert carts[u] == before[u];
        }
      }
    }

    /** `add_to_cart_view`; on success the id of the item written. */
    method AddToCart(user: UserId, productId: Option<string>, quantity: Quantity, products: ProductTable)
      returns (r: Result<ItemId, CartError>)
      requires Valid() && WellKeyed(products)
      modifies this
      ensures Valid()
      ensures r == Err(InvalidAddRequest) <==> !Truthy(productId) || AddQuantity(quantity).None?
      ensures r == Err(ProductNotFound) <==>
        Truthy(productId) && AddQuantity(quantity).Some? && LookupAvailable(products, productId.value).None?
      ensures r.Err? ==> r.error == InvalidAddRequest || r.error == ProductNotFound
      ensures r.Err? ==>
        carts == old(carts) && items == old(items) && nextCart == old(nextCart) && nextItem == old(nextItem)
      ensures r.Ok? ==> CartOfUserReady(user, old(carts), old(nextCart))
      ensures r.Ok? ==>
        var cart := carts[user];
        var product := products[productId.value];
        var q := AddQuantity(quantity).value;
        var existing := FindItem(old(items), cart, productId.value, old(nextItem));
        && product.isAvailable
        && (existing.Some? ==>
              r.value == existing.value && nextItem == old(nextItem)
              && items == old(items)[r.value := SavedItem(cart, product, old(items)[r.value].quantity + q)])
        && (existing.None? ==>
              r.value == old(nextItem) && nextItem == old(nextItem) + 1
              && items == old(items)[r.value := SavedItem(cart, product, q)])
    {
      var q := AddQuantity(quantity);
      if !Truthy(productId) || q.None? {
        return Err(InvalidAddRequest);
      }
      var found := LookupAvailable(products, productId.value);
      if found.None? {
        return Err(ProductNotFound);
      }
      var product := found.value;
      var cart := GetOrCreateCart(user);
      var id := AddItem(cart, product, q.value);
      r := Ok(id);
    }

    /**
     * `CartItem.objects.get_or_create(cart=cart, product=product, defaults=...)`
     * followed, for an existing row, by `quantity += q` and `save`.
     */
    method AddItem(cart: CartId, product: Product, q: int) returns (id: ItemId)
      requires Valid() && cart in carts.Values && q >= 1
      modifies this`items, this`nextItem
      ensures Valid()
      ensures
        var existing := FindItem(old(items), cart, product.id, old(nextItem));
        && (existing.Some? ==>
              id == existing.value && nextItem == old(nextItem)
              && items == old(items)[id := SavedItem(cart, product, old(items)[id].quantity + q)])
        && (existing.None? ==>
              id == old(nextItem) && nextItem == old(nextItem) + 1
              && items == old(items)[id := SavedItem(cart, product, q)])
    {
      var existing := FindItem(items, cart, product.id, nextItem);
      if existing.None? {
        id := CreateItem(SavedItem(cart, product, q));
      } else {
        id := existing.value;
        SaveItem(id, SavedItem(cart, product, items[id].quantity + q));
      }
    }

    /** Stores `row` under the next free id; no row of its cart may be for its product. */
    method CreateItem(row: CartItem) returns (id: ItemId)
      requires Valid() && row.cart in carts.Values && row.quantity >= 1
      requires forall j :: j in items ==> items[j].cart != row.cart || items[j].product != row.product
      modifies this`items, this`nextItem
      ensures Valid()
      ensures id == old(nextItem) && nextItem == id + 1 && items == old(items)[id := row]
    {
      id := nextItem;
      OneRowPerProductPut(items, id, row);
      items := items[id := row];
      nextItem := nextItem + 1;
    }

    /** Overwrites row `id` with `row`, which keeps its cart and product. */
    method SaveItem(id: ItemId, row: CartItem)
      requires Valid() && id in items && row.quantity >= 1
      requires row.cart == items[id].cart && row.product == items[id].product
      modifies this`items
      ensures Valid()
      ensures items == old(items)[id := row]
    {
      OneRowPerProductPut(items, id, row);
      items := items[id := row];
    }

    /** `update_cart_item_view`; on success the item as saved. */
    method UpdateCartItem(user: UserId, id: ItemId, quantity: Quantity, products: ProductTable)
      returns (r: Result<CartItem, CartError>)
      requires Valid() && Linked(products) && WellKeyed(products)
      modifies this
      ensures Valid() && Linked(products)
      ensures r == Err(InvalidQuantity) <==> UpdateQuantity(quantity).None?
      ensures r == Err(InvalidQuantity) ==> carts == old(carts) && nextCart == old(nextCart)
      ensures r != Err(InvalidQuantity) ==> CartOfUserReady(user, old(carts), old(nextCart))
      ensures r == Err(ItemNotFound) <==>
        UpdateQuantity(quantity).Some? && !(user in old(carts) && id in old(items) && old(items)[id].cart == old(carts)[user])
      ensures r.Err? ==> r.error == InvalidQuantity || r.error == ItemNotFound
      ensures r.Err? ==> items == old(items)
      ensures r.Ok? ==>
        var q := UpdateQuantity(quantity).value;
        && id in old(items) && old(items)[id].cart == carts[user]
        && r.value == SavedItem(carts[user], products[old(items)[id].product], q)
        && items == old(items)[id := r.value]
      ensures nextItem == old(nextItem)
    {
      var q := UpdateQuantity(quantity);
      if q.None? {
        return Err(InvalidQuantity);
      }
      var cart := GetOrCreateCart(user);
      if !(id in items && items[id].cart == cart) {
        return Err(ItemNotFound);
      }
      var item := SavedItem(cart, products[items[id].product], q.value);
      SaveItem(id, item);
      r := Ok(item);
    }

    /** `remove_from_cart_view`. */
    method RemoveFromCart(user: UserId, id: ItemId) returns (r: Result<(), CartError>)
      requires Valid()
      modifies this
      ensures Valid()
      ensures CartOfUserReady(user, old(carts), old(nextCart))
      ensures r.Err? <==> !(user in old(carts) && id in old(items) && old(items)[id].cart == old(carts)[user])
      ensures r.Err? ==> r.error == ItemNotFound && items == old(items)
      ensures r.Ok? ==> items == old(items) - {id}
      ensures nextItem == old(nextItem)
    {
      var cart := GetOrCreateCart(user);
      if !(id in items && items[id].cart == cart) {
        return Err(ItemNotFound);
      }
      items := items - {id};
      r := Ok(());
    }

    /** `get_cart_view`: the items of the user's cart, created if need be, and its total. */
    method GetCart(user: UserId) returns (cartItems: ItemTable, total: int)
      requires Valid()
      modifies this
      ensures Valid()
      ensures CartOfUserReady(user, old(carts), old(nextCart))
      ensures items == old(items) && nextItem == old(nextItem)
      ensures forall id :: id in cartItems <==> id in items && items[id].cart == carts[user]
      ensures forall id :: id in cartItems ==> cartItems[id] == items[id]
      ensures total == Total(carts[user])
      ensures user !in old(carts) ==> cartItems == map[] && total == 0
    {
      var cart := GetOrCreateCart(user);
      cartItems := map id | id in items && items[id].cart == cart :: items[id];
      total := CartTotal(items, cart, nextItem);
      if user !in old(carts) {
        EmptyCartTotal(items, cart, nextItem);
      }
    }

    /** `CartItem.objects.filter(cart=cart).delete()` for the user's cart, when the user has one. */
    method ClearCartOf(user: UserId)
      requires Valid()
      modifies this`items
      ensures Valid()
      ensures user !in carts ==> items == old(items)
      ensures user in carts ==> forall id :: id in items <==> id in old(items) && old(items)[id].cart != carts[user]
      ensures forall id :: id in items ==> items[id] == old(items)[id]
    {
      if user in carts {
        var cart := carts[user];
        items := map id | id in items && items[id].cart != cart :: items[id];
      }
    }
  }

  /** Adding to an existing item raises its quantity by the amount added and its cart's total by the matching line change. */
  lemma {:induction false} AddChangesTotal(items: ItemTable, cart: CartId, nextItem: nat, id: ItemId, product: Product, q: int)
    requires id < nextItem && id in items && items[id].cart == cart
    ensures var after := items[id := SavedItem(cart, product, items[id].quantity + q)];
      CartTotal(after, cart, nextItem) == CartTotal(items, cart, nextItem) - items[id].lineTotal
        + product.price * (items[id].quantity + q)
  {
    TotalAfterWrite(items, cart, nextItem, id, SavedItem(cart, product, items[id].quantity + q));
  }
}
