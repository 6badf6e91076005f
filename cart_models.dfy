/**
 * The cart tables (backend/apps/cart/models.py): a `CartItem` row, the line
 * total its `save` computes, and `Cart.get_total`, the sum of the stored line
 * totals of a cart's items. Row ids, UUIDs in the source, are handed out
 * from a counter, so every id in use is below it.
 */
module CartModels {
  import opened Wrappers
  import opened Catalog

  type UserId = string
  type CartId = nat
  type ItemId = nat

  /** A `cart_items` row; `lineTotal` is in paise. */
  datatype CartItem = CartItem(cart: CartId, product: ProductId, quantity: int, lineTotal: int)

  /** The row `CartItem.save` writes: the line total is recomputed from the product's current price. */
  function SavedItem(cart: CartId, product: Product, quantity: int): CartItem {
    CartItem(cart, product.id, quantity, product.price * quantity)
  }

  type ItemTable = map<ItemId, CartItem>

  /** What row `id` adds to the total of `cart`. */
  function Contribution(items: ItemTable, cart: CartId, id: ItemId): int {
    if id in items && items[id].cart == cart then items[id].lineTotal else 0
  }

  /** The sum of the line totals of the items of `cart` among the ids below `n`. */
  function TotalBelow(items: ItemTable, cart: CartId, n: nat): int {
    if n == 0 then 0 else TotalBelow(items, cart, n - 1) + Contribution(items, cart, n - 1)
  }

  /** `Cart.get_total`, the ids in use being those below `nextItem`; `or 0` is the empty sum. */
  function CartTotal(items: ItemTable, cart: CartId, nextItem: nat): int {
    TotalBelow(items, cart, nextItem)
  }

  /** A cart with no items totals 0. */
  lemma {:induction false} EmptyCartTotal(items: ItemTable, cart: CartId, n: nat)
    requires forall id :: id in items ==> items[id].cart != cart
    ensures TotalBelow(items, cart, n) == 0
  {
    if n > 0 { EmptyCartTotal(items, cart, n - 1); }
  }

  /** Line totals of non-negative prices and quantities give a non-negative total. */
  lemma {:induction false} TotalNonNegative(items: ItemTable, cart: CartId, n: nat)
    requires forall id :: id in items ==> items[id].lineTotal >= 0
    ensures TotalBelow(items, cart, n) >= 0
  {
    if n > 0 { TotalNonNegative(items, cart, n - 1); }
  }

  /** Rows at or above `n` do not enter the sum. */
  lemma {:induction false} TotalIgnoresHigherIds(items: ItemTable, other: ItemTable, cart: CartId, n: nat)
    requires forall id: ItemId :: id < n ==> Contribution(items, cart, id) == Contribution(other, cart, id)
    ensures TotalBelow(items, cart, n) == TotalBelow(other, cart, n)
  {
    if n > 0 { TotalIgnoresHigherIds(items, other, cart, n - 1); }
  }

  /** Writing row `id` changes the total by the change of that row's contribution. */
  lemma {:induction false} TotalAfterWrite(items: ItemTable, cart: CartId, n: nat, id: ItemId, row: CartItem)
    requires id < n
    ensures TotalBelow(items[id := row], cart, n)
      == TotalBelow(items, cart, n) - Contribution(items, cart, id) + Contribution(items[id := row], cart, id)
  {
    if n - 1 == id {
      TotalIgnoresHigherIds(items[id := row], items, cart, n - 1);
    } else {
      TotalAfterWrite(items, cart, n - 1, id, row);
    }
  }

  /** Deleting row `id` takes that row's contribution out of the total. */
  lemma {:induction false} TotalAfterDelete(items: ItemTable, cart: CartId, n: nat, id: ItemId)
    requires id < n
    ensures TotalBelow(items - {id}, cart, n) == TotalBelow(items, cart, n) - Contribution(items, cart, id)
  {
    if n - 1 == id {
      TotalIgnoresHigherIds(items - {id}, items, cart, n - 1);
    } else {
      TotalAfterDelete(items, cart, n - 1, id);
    }
  }

  /** A new row stored under the next free id adds its line total to its own cart only. */
  lemma {:induction false} TotalAfterInsert(items: ItemTable, cart: CartId, n: nat, row: CartItem)
    requires forall id :: id in items ==> id < n
    ensures TotalBelow(items[n := row], cart, n + 1)
      == TotalBelow(items, cart, n) + (if row.cart == cart then row.lineTotal else 0)
  {
    TotalIgnoresHigherIds(items[n := row], items, cart, n);
  }

  /** No two rows of one cart are for the same product. */
  predicate OneRowPerProduct(items: ItemTable) {
    forall i, j :: i in items && j in items && i != j ==> items[i].cart != items[j].cart || items[i].product != items[j].product
  }

  /** Storing a row under `id` keeps one row per product when no other row has its cart and product. */
  lemma OneRowPerProductPut(items: ItemTable, id: ItemId, row: CartItem)
    requires OneRowPerProduct(items)
    requires forall j :: j in items && j != id ==> items[j].cart != row.cart || items[j].product != row.product
    ensures OneRowPerProduct(items[id := row])
  {
  }

  /** The id of the row of `cart` for `product` among the ids below `n`, if there is one. */
  function FindItem(items: ItemTable, cart: CartId, product: ProductId, n: nat): (r: Option<ItemId>)
    ensures r.Some? ==> r.value < n && r.value in items && items[r.value].cart == cart && items[r.value].product == product
    ensures r.None? ==> forall id: ItemId :: id < n && id in items ==> items[id].cart != cart || items[id].product != product
  {
    if n == 0 then None
    else if n - 1 in items && items[n - 1].cart == cart && items[n - 1].product == product then Some(n - 1)
    else FindItem(items, cart, product, n - 1)
  }
}
