# Dolce Fiore shop core, modelled in Dafny

Dolce Fiore is an online gift shop. It has a Django REST back end and a React front end.
This project models the core of the back end:

- the shopping cart: one cart per user, one row per product, line totals recomputed on save;
- order placement: required keys, a price snapshot per item, the order number `ORD-YYYYMMDD-XXXXXXXX`, clearing the cart;
- payments through the Razorpay gateway: creating a gateway order, verifying a payment signature, the webhook;
- the middleware that adds a trailing slash to request paths;
- the product list (filters and sort) and the product detail lookup;
- the content endpoints: active rows in `order`, single sections with a fallback, blog posts newest first;
- the user serializers: signup, login, shipping address read and write;
- the contact form: the browser-side checks of `ContactForm.tsx` and the server's `validate_message`;
- the `migrate_to_new_categories` management command, meant to move products from the legacy category and tag columns to the new tables. As written it never detects either column, so it only creates the categories and their default subcategories (see Findings).

Layout:

- One module per source file, each in its own `.dfy` file.
- Code that works step by step is written as methods on store classes:
  - `CartViews.CartStore` holds the cart and item tables;
  - `OrderViews.OrderStore` holds the orders table;
  - `PaymentViews.PaymentStore` holds the payment rows;
  - `MigrateCategories.Database` holds the tables the command touches;
  - `UserSerializers.Profile` and `ContactForm.ContactFormState` hold a profile row and the form component's state;
  - `Middleware.Request` holds the request.
- Each such method is proved against a function of the old state. The request-level outcomes of the payment endpoints are functions, `CreateOutcome`, `VerifyOutcome` and `WebhookOutcome`. The lemmas about those functions carry the properties: idempotence, consistency, what is left unchanged.
- Orders, carts, cart items and payments are keyed by counters in place of their UUIDs. Products and categories are keyed by their id strings. Money is an exact integer number of paise.
- Anything outside the process is a parameter of the operation that needs it:
  - the product table;
  - the Razorpay client and its signature checks;
  - `authenticate`;
  - the password hasher;
  - `timezone.now()` and `uuid4()`.

Notes on the code as written:

- `add_to_cart_view` reads `request.data.get('quantity', 1)`, so a missing quantity adds one item (`CartViews.AddQuantity`). `update_cart_item_view` has no default and refuses a missing quantity (`CartViews.UpdateQuantity`).
- `validate_message` does no trimming of its own. It measures the value it is handed, in code points (Python `len`), and `ContactSerializer.ValidateMessage` takes that value as its argument. The browser counts UTF-16 units of the trimmed text instead. `ContactForm.FormAndServerDisagreeOnLength` exhibits a message that one side accepts and the other refuses.
- The model assumes that `strftime('%Y')` does not pad the year, as glibc does; other C libraries may pad it to four digits. Under that assumption the order number has the documented shape only from the year 1000 on (`OrderModels.ComposedIsWellFormed`).
- `verify_payment_view` does not look at the payment's status before overwriting it (`PaymentViews.VerifyIgnoresPriorStatus`).
- `SignupSerializer` counts the password's `min_length` after stripping white space. An eight-character password with seven leading spaces is too short (`UserSerializers.PaddedPasswordTooShort`).
- `UniqueValidator` compares the email exactly, but `create_user` stores it with the domain lowered. A case variant of a stored email therefore passes validation and breaks the unique column, which answers 500 (`UserSerializers.CaseVariantSignupConflicts`).
- `Category.name` and `Tag.name` are unique (`backend/apps/products/models.py:12`, `:72`) and nothing catches the `IntegrityError` inside the atomic block. A stored row whose name matches a new row under another slug therefore stops the command and rolls every table back (`MigrateCategories.CookieNameTaken`, `MigrateCategories.GiftBoxNameTaken`).
- Tag slugs fold case and replace `' '` and `'_'` with `'-'`. Two distinct tag names can therefore share one tag row (`MigrateCategories.SlugsCollide`).

## Model

| member | source | states |
|---|---|---|
| Middleware.LastSegment | backend/config/middleware.py:26 | The result is a suffix of the path with no `/`, and it is the whole path or is preceded by a `/`. |
| Middleware.JoinEndsWithLast | backend/config/middleware.py:26 | The last piece of a split is a suffix of the joined string with the separator before it. |
| Middleware.Normalise | backend/config/middleware.py:25-34 | The path is kept or gets exactly one `/` appended. The result ends with `/` unless the path looks like a file. Paths already ending in `/`, or ending in a listed extension in any case, are left as they are. |
| Middleware.LooksLikeFile | backend/config/middleware.py:26-32 | The last segment, lowered, ends with one of the listed file extensions. |
| Middleware.RootUnchanged | backend/config/middleware.py:25 | The root path `/` is never rewritten. |
| Middleware.NormaliseIdempotent | backend/config/middleware.py:25-34 | Normalising a normalised path changes nothing. |
| Middleware.Request.Call | backend/config/middleware.py:16-37 | `path_info` becomes the normalised path. `META['PATH_INFO']` is updated only when the path changed and the key exists; otherwise `META` is unchanged. |
| Text.LeadingCount | frontend/src/components/ContactForm.tsx:21 | Counts exactly the leading white-space characters. |
| Text.TrailingStart | frontend/src/components/ContactForm.tsx:21 | Everything from the result on is white space, and the character before it is not. |
| Text.Strip | backend/apps/products/management/commands/migrate_to_new_categories.py:145 | `strip()`/`trim()`: empty exactly when the input is all white space. Otherwise it is the input between its first and last non-space characters. |
| Text.StripIdempotent | backend/apps/products/management/commands/migrate_to_new_categories.py:145 | Stripping twice equals stripping once. |
| Text.ToLower | backend/config/middleware.py:32 | Same length, each character lowered. |
| Text.Split | backend/apps/products/management/commands/migrate_to_new_categories.py:145 | `split(',')` gives at least one piece, no piece holds the separator, and joining the pieces gives back the input. |
| Text.SplitJoin | backend/apps/products/management/commands/migrate_to_new_categories.py:145 | Splitting a join of separator-free pieces gives back the pieces. |
| Text.SplitNoSep | backend/config/middleware.py:26 | A string without the separator splits into itself alone. |
| Text.Utf16Length | frontend/src/components/ContactForm.tsx:23 | JavaScript `length` lies between the code-point count and twice it. |
| Text.Utf16LengthAstral | frontend/src/components/ContactForm.tsx:43 | Characters beyond the Basic Multilingual Plane count twice. |
| Text.LexLessIrreflexive | backend/apps/products/management/commands/migrate_to_new_categories.py:151 | Python's string order is irreflexive. |
| Text.LexLessTransitive | backend/apps/products/management/commands/migrate_to_new_categories.py:151 | Python's string order is transitive. |
| Text.LexLessTotal | backend/apps/products/management/commands/migrate_to_new_categories.py:151 | Any two distinct strings are ordered. |
| Query.Filter | backend/apps/products/views.py:24 | `filter` keeps exactly the rows satisfying the condition, each at most as often as before. |
| Query.FilterFilter | backend/apps/products/views.py:24-42 | Chained filters equal one filter by the conjunction. |
| Query.FilterExtensional | backend/apps/products/views.py:24-42 | Filters by equivalent conditions give the same rows. |
| Query.Insert | backend/apps/products/views.py:45-51 | Inserting into a sorted list keeps it sorted and adds exactly the new element. |
| Query.BoundKept | backend/apps/products/views.py:45-51 | A lower bound of the inputs bounds every element of the permutation. |
| Query.SortBy | backend/apps/products/views.py:45-51 | `order_by` gives a sorted permutation of the rows. |
| Query.SortByMembers | backend/apps/content/views.py:41 | Sorting keeps exactly the same rows. |
| Query.First | backend/apps/content/views.py:86 | `first()` is `None` exactly on an empty queryset; otherwise it is a row with the least key. |
| Catalog.LookupProduct | backend/apps/cart/views.py:61 | `Product.objects.get(id=...)` finds the row exactly when the id is in the table. |
| Catalog.LookupAvailable | backend/apps/cart/views.py:61 | With `is_available=True` it finds the row exactly when the id is present and available. |
| CartModels.SavedItem | backend/apps/cart/models.py:43-46 | The row `CartItem.save` writes: the given cart, product and quantity, with the line total recomputed as the product's current price times the quantity. |
| CartModels.CartTotal | backend/apps/cart/models.py:21-23 | `Cart.get_total`: the sum of the stored line totals of the cart's rows, 0 when there are none. The lemmas below state its properties. |
| CartModels.EmptyCartTotal | backend/apps/cart/models.py:21-23 | A cart with no items totals 0 (`or 0`). |
| CartModels.TotalNonNegative | backend/apps/cart/models.py:21-23 | Non-negative line totals sum to a non-negative total. |
| CartModels.TotalIgnoresHigherIds | backend/apps/cart/models.py:21-23 | The total depends only on what the rows with ids in use contribute. |
| CartModels.TotalAfterWrite | backend/apps/cart/models.py:21-23 | Rewriting a row changes the total by that row's change of line total. |
| CartModels.TotalAfterDelete | backend/apps/cart/models.py:21-23 | Deleting a row subtracts its line total from its own cart only. |
| CartModels.TotalAfterInsert | backend/apps/cart/models.py:21-23 | A new row adds its line total to its own cart only. |
| CartModels.OneRowPerProductPut | backend/apps/cart/models.py:41 | Storing a row keeps `unique_together(cart, product)` when no other row has its cart and product. |
| CartModels.FindItem | backend/apps/cart/views.py:71-75 | The `get_or_create` lookup finds a row of that cart and product, or establishes that none exists. |
| CartViews.ErrorText | backend/apps/cart/views.py:56-100 | Every cart error has a non-empty message, the text the view sends. |
| CartViews.AddQuantity | backend/apps/cart/views.py:52-58 | A missing quantity means 1. JSON `null` and non-positive numbers are refused. A positive number is kept. |
| CartViews.UpdateQuantity | backend/apps/cart/views.py:96-102 | Only a positive number is accepted, and it is kept as given. |
| CartViews.AddChangesTotal | backend/apps/cart/views.py:77-80 | Adding to an existing item raises its quantity by the amount added, and the cart total by the price times that amount. |
| CartViews.CartStore.constructor | backend/apps/cart/models.py:11-46 | Empty tables satisfy the store invariant. |
| CartViews.CartStore.GetOrCreateCart | backend/apps/cart/views.py:15-18 | Returns the user's cart. If the user had none, a new empty cart is created under the next id. Items are unchanged. |
| CartViews.CartStore.AddToCart | backend/apps/cart/views.py:49-83 | Gives 400 exactly for a blank product id or a bad quantity, and 404 exactly for a product that is not available. No other error is possible, so every other request succeeds. Errors change no item. On success the user's cart exists and its row for the product has its quantity raised by the amount, or a new row holds that amount. The line total is price times quantity, and one row per product is kept. |
| CartViews.CartStore.AddItem | backend/apps/cart/views.py:71-80 | The `get_or_create` and `+=` step: as in `AddToCart`'s success case. |
| CartViews.CartStore.CreateItem | backend/apps/cart/views.py:71-75 | Stores the new row under the next item id, keeping the invariant. |
| CartViews.CartStore.SaveItem | backend/apps/cart/views.py:79-80 | Overwrites one row in place, keeping cart and product. |
| CartViews.CartStore.UpdateCartItem | backend/apps/cart/views.py:94-111 | Gives 400 exactly for a bad quantity, before any cart is created. Gives 404 exactly when the item is not in the user's cart. No other error is possible. On success only that row changes, to the new quantity with a recomputed line total. |
| CartViews.CartStore.RemoveFromCart | backend/apps/cart/views.py:121-127 | Gives 404 exactly when the item is not in the user's cart; otherwise exactly that row is deleted. |
| CartViews.CartStore.GetCart | backend/apps/cart/views.py:42-46 | Returns exactly the rows of the user's cart, the cart made if need be, and the cart total. A new cart is empty with total 0. |
| CartViews.CartStore.ClearCartOf | backend/apps/orders/views.py:109-113 | Deletes exactly the user's cart rows and keeps every other row as it was. |
| OrderModels.StatusValueInjective | backend/apps/orders/models.py:15-20 | Distinct statuses are stored as distinct values. |
| OrderModels.SaveOrderItem | backend/apps/orders/models.py:89-94 | A missing or zero price snapshot becomes the product price. The line total is snapshot times quantity. |
| OrderModels.SumLinesAppend | backend/apps/orders/models.py:55-57 | The order total is additive over item lists. |
| OrderModels.SumLinesNonNegative | backend/apps/orders/models.py:55-57 | Non-negative prices and quantities give a non-negative total. |
| OrderModels.DigitChar | backend/apps/orders/models.py:62 | Maps a digit to its decimal character. |
| OrderModels.DigitValue | backend/apps/orders/models.py:62 | Maps a decimal character back to its digit. |
| OrderModels.DigitRoundTrip | backend/apps/orders/models.py:62 | `DigitValue(DigitChar(d)) == d`. |
| OrderModels.Decimal | backend/apps/orders/models.py:62 | `%Y` as glibc writes it: the decimal digits of the year unpadded, non-empty and all digits. |
| OrderModels.Pad2 | backend/apps/orders/models.py:62 | `%m`/`%d`: exactly two digits. |
| OrderModels.HexUpper | backend/apps/orders/models.py:63 | Maps a nibble to an upper-case hexadecimal digit. |
| OrderModels.HexValue | backend/apps/orders/models.py:63 | Maps an upper-case hexadecimal digit back to its nibble. |
| OrderModels.HexRoundTrip | backend/apps/orders/models.py:63 | `HexValue(HexUpper(n)) == n`. |
| OrderModels.UuidPrefix | backend/apps/orders/models.py:63 | `str(uuid)[:8].upper()`: eight upper-case hexadecimal digits of the UUID's first eight nibbles. |
| OrderModels.FormatDate | backend/apps/orders/models.py:62 | `strftime('%Y%m%d')`: at least five characters, all decimal digits. |
| OrderModels.ComposeOrderNumber | backend/apps/orders/models.py:62-64 | `ORD-`, the formatted date, `-`, then the UUID prefix, at those positions. |
| OrderModels.DecimalOfFourDigits | backend/apps/orders/models.py:62 | A year from 1000 to 9999 is written with four digits. |
| OrderModels.DivTens | backend/apps/orders/models.py:62 | Decimal digit extraction of a four-digit number. |
| OrderModels.ComposedIsWellFormed | backend/apps/orders/models.py:59-65 | From the year 1000 on, the composed number is `ORD-`, eight digits, `-` and eight upper-case hex digits. |
| OrderModels.ComposedWellFormedFrom1000 | backend/apps/orders/models.py:59-65 | The same fact, stated for every date. |
| OrderModels.ComposedChars | backend/apps/orders/models.py:64 | The composed number character by character. |
| OrderModels.DecodeOrderNumber | backend/apps/orders/models.py:64 | Decodes only well-formed numbers (`DecodeCompose` is the round trip). |
| OrderModels.DecodeComposeYear | backend/apps/orders/models.py:62-64 | Decoding recovers the year. |
| OrderModels.DecodeComposeMonthDay | backend/apps/orders/models.py:62-64 | Decoding recovers the month and day. |
| OrderModels.DecodeComposePrefix | backend/apps/orders/models.py:63-64 | Decoding recovers the UUID prefix. |
| OrderModels.DecodeCompose | backend/apps/orders/models.py:59-65 | Decoding a composed number gives back the date and the first eight UUID digits. |
| OrderModels.ComposeInjective | backend/apps/orders/models.py:59-65 | Equal numbers come from the same day and the same UUID prefix. |
| OrderModels.GenerateOrderNumber | backend/apps/orders/models.py:59-65 | A number already set is kept. Otherwise it is composed, well-formed from the year 1000 on. It is never empty. |
| OrderModels.GenerateKeepsNumber | backend/apps/orders/models.py:61 | Once set, the number survives any later call. |
| OrderModels.SaveOrder | backend/apps/orders/models.py:67-70 | `save` changes only the order number, and only when it is empty. |
| OrderViews.ErrorText | backend/apps/orders/views.py:52-127 | Every order error has a non-empty message, the text the view sends. |
| OrderViews.ItemsAccepted | backend/apps/orders/serializers.py:44-48 | `ListField(child=DictField(child=CharField()))`: every item value must be non-blank; the view refuses the request otherwise. |
| OrderViews.CustomerComplete | backend/apps/orders/views.py:58-66 | The customer details hold `name`, `email` and `phone`; only presence is checked. |
| OrderViews.ShippingComplete | backend/apps/orders/views.py:59-72 | The shipping address holds `street`, `city`, `state`, `zipCode` and `country`. |
| OrderViews.OrderHeader | backend/apps/orders/views.py:77-89 | The order row `Order.objects.create` receives: the user, the customer and shipping fields copied from the request, the gift note and the parsed delivery date. |
| OrderViews.QuantityOf | backend/apps/orders/views.py:94 | `int(quantity)`: 1 when absent, the number when it parses, and `Invalid quantity` otherwise. |
| OrderViews.RequestedProduct | backend/apps/orders/views.py:97-99 | Finds the product only when the id is given, present and available. |
| OrderViews.PlanItem | backend/apps/orders/views.py:92-106 | One item: its errors in the order the code raises them. A created row has the product's current price as snapshot and line total price times quantity. |
| OrderViews.PlanItems | backend/apps/orders/views.py:92-106 | Succeeds exactly when every entry does. The rows are then one per entry, in request order. |
| OrderViews.PlanItemsFirstError | backend/apps/orders/views.py:92-106 | A failed plan reports the error of the first failing entry, all earlier ones succeeding. |
| OrderViews.PlanItemsKeepsFirstError | backend/apps/orders/views.py:92-106 | Entries after the first failure do not matter. |
| OrderViews.BuildItems | backend/apps/orders/views.py:92-106 | The item loop computes `PlanItems`. |
| OrderViews.Delivery | backend/apps/orders/views.py:49-88 | `deliveryPreferences` left out reads as `{}`. JSON `null` raises. A date out of range raises. Otherwise the note and the parsed date are kept. |
| OrderViews.CreateOutcome | backend/apps/orders/views.py:40-127 | Gives 400 exactly for a blank item value (refused by the serializer), empty items, missing customer keys or missing shipping keys, in that order. On success the customer fields and the five shipping fields are the request's, the gift note and the delivery date are those `Delivery` reads, and the order gets a fresh number and the planned items. |
| OrderViews.OrderSnapshotsPrices | backend/apps/orders/views.py:92-106 | A created order has one row per requested entry, each priced at the product's price when ordered. |
| OrderViews.UnavailableProductRejects | backend/apps/orders/views.py:92-127 | An entry naming an unavailable product means no order is created. |
| OrderViews.OrderStore.constructor | backend/apps/orders/models.py:24 | An empty table satisfies the unique-number invariant. |
| OrderViews.OrderStore.Place | backend/apps/orders/models.py:24 | Saves under the next id, keeping order numbers unique. |
| OrderViews.OrderStore.CreateOrder | backend/apps/orders/views.py:40-127 | Follows `CreateOutcome`: success stores exactly that order and deletes exactly the user's cart rows. A failure changes neither table (the atomic block). |
| PaymentModels.ParseStatus | backend/apps/payments/models.py:17-20 | Reading a stored status inverts its stored value; unknown values are refused. |
| PaymentModels.ParseProvider | backend/apps/payments/models.py:12-15 | The same for providers. |
| PaymentModels.NewPayment | backend/apps/payments/models.py:22-28 | A created row has the given fields, provider `RAZORPAY` and status `PENDING`. |
| PaymentModels.Latest | backend/apps/payments/models.py:34 | Newest-first ordering: the last row of that order (and pending when asked). `None` exactly when there is none. |
| PaymentModels.ByGatewayId | backend/apps/payments/models.py:24 | Finds a row with that gateway id, `None` exactly when there is none. |
| PaymentModels.ByGatewayIdUnique | backend/apps/payments/models.py:24 | With unique ids, the row found is the one row with that id. |
| PaymentViews.MarkPaid | backend/apps/payments/views.py:279-281 | Sets one order to `PAID` and leaves every other order as it was. |
| PaymentViews.SerializerAccepts | backend/apps/payments/serializers.py:8-12 | `PaymentOrderRequestSerializer`: the amount fits `max_digits=10, decimal_places=2`, a given currency is non-blank and at most three characters, and `orderId` is present. |
| PaymentViews.CurrencyOf | backend/apps/payments/views.py:41 | The currency defaults to `INR`. |
| PaymentViews.GatewayRequest | backend/apps/payments/views.py:93-101 | The gateway order carries the amount, the currency, receipt `order_<number>` and both ids in the notes. |
| PaymentViews.GatewayError | backend/apps/payments/views.py:111-164 | An authentication failure is recognised in either error kind. Other bad requests and other failures are kept apart. |
| PaymentViews.CreateOutcome | backend/apps/payments/views.py:35-213 | Errors, in order: the serializer's refusal (more than eight digits before the point, a blank or over-long currency, no `orderId`), a non-positive amount, order not found. The view's own "Order ID is required" answer never occurs. An existing pending payment is returned unchanged. Otherwise: an unconfigured gateway gives `GatewayNotConfigured` (500); a gateway reply other than a created order gives `GatewayError` with that reply; a created id that is already stored gives `SaveFailed`; any other created reply succeeds with exactly one pending row appended, carrying the order, the gateway's id, the amount and the currency. |
| PaymentViews.CreateTwiceReturnsExisting | backend/apps/payments/views.py:69-77 | Repeating a successful request returns the payment just made and adds nothing, whatever the gateway would answer. |
| PaymentViews.CreateKeepsConsistent | backend/apps/payments/views.py:167-188 | Creation keeps gateway ids unique and every payment tied to an order. |
| PaymentViews.VerifyOutcome | backend/apps/payments/views.py:227-288 | Gives 404 for a foreign or missing order, or when the order has no payment. A bad signature sets the newest payment `FAILED`. A good one records the ids and `SUCCESS` and marks the order `PAID`. |
| PaymentViews.VerifyIgnoresPriorStatus | backend/apps/payments/views.py:266-283 | The checked payment's prior status never changes the outcome. |
| PaymentViews.VerifyAsWritten | backend/apps/payments/views.py:275-279 | As written: the same reply and orders as `VerifyOutcome`, but each payment row keeps everything except its status, which is `VerifyOutcome`'s. |
| PaymentViews.VerifyAsWrittenDropsPaymentId | backend/apps/payments/views.py:275-279 | As written a verified payment keeps no gateway payment id. The intended outcome records it. |
| PaymentViews.VerifyKeepsConsistent | backend/apps/payments/views.py:227-288 | Verification keeps the payment invariant. |
| PaymentViews.EntityField | backend/apps/payments/views.py:338-339 | `payload_data.get(key)`. |
| PaymentViews.WebhookTarget | backend/apps/payments/views.py:306-351 | The webhook reaches a payment exactly when the signature is given and valid, the body parses, the entity is non-empty, both ids are truthy and the gateway order id is known. |
| PaymentViews.WebhookOutcome | backend/apps/payments/views.py:303-387 | The intended handler (see Findings). Each reply is characterised exactly: 400 for a missing or invalid signature or bad JSON; "no payment entity" for an empty entity; "missing payment information" when either id is absent or empty; "payment not found" when both ids are given but no payment has that gateway order id. It never answers 500. Each refusal changes nothing. A payment already taking that id with a webhook received is left alone. Otherwise the id and the webhook flag are recorded. A capture sets `SUCCESS` and the order `PAID`, a failure sets `FAILED`. |
| PaymentViews.WebhookAsWritten | backend/apps/payments/views.py:346-387 | As written: the same refusals as `WebhookOutcome`. Every webhook that reaches a payment answers 500, and no webhook changes a row. |
| PaymentViews.WebhookAsWrittenLosesCapture | backend/apps/payments/views.py:346-387 | For a signed capture of a known payment, the handler as written answers 500 and keeps the status. The intended one answers 200, sets `SUCCESS` and marks the order `PAID`. |
| PaymentViews.WebhookKeepsConsistent | backend/apps/payments/views.py:359-371 | The webhook keeps the payment invariant. |
| PaymentViews.WebhookIdempotent | backend/apps/payments/views.py:354-356 | For the intended handler, a processed webhook delivered again is answered "already processed" and changes nothing. |
| PaymentViews.FailedWebhookKeepsOrders | backend/apps/payments/views.py:367-369 | `payment.failed` never changes an order. |
| PaymentViews.PaymentStore.constructor | backend/apps/payments/models.py:24 | An empty table satisfies the invariant. |
| PaymentViews.PaymentStore.CreatePaymentOrder | backend/apps/payments/views.py:35-213 | The new rows and the reply are `CreateOutcome`'s, so the same cases hold: the existing pending payment, `GatewayNotConfigured`, `GatewayError`, `SaveFailed`, or one appended pending row. |
| PaymentViews.PaymentStore.VerifyPayment | backend/apps/payments/views.py:227-288 | The new rows, the orders and the reply are `VerifyOutcome`'s. |
| PaymentViews.PaymentStore.HandleWebhook | backend/apps/payments/views.py:303-387 | The new rows, the orders and the reply are those of the intended handler, `WebhookOutcome`. |
| ProductViews.FilterProducts | backend/apps/products/views.py:24-42 | The chained filters keep exactly the rows that are available and match every given, non-blank parameter. |
| ProductViews.SortKey | backend/apps/products/views.py:45-51 | The `order_by` key: price ascending for `price_low`, descending for `price_high`, newest first for anything else or no value. |
| ProductViews.FilterChainIsConjunction | backend/apps/products/views.py:24-42 | The chained filters list exactly the available rows matching every given, non-blank parameter, in table order. |
| ProductViews.ProductList | backend/apps/products/views.py:22-54 | Exactly the listed rows, as a permutation of the filtered rows, sorted by the chosen key. |
| ProductViews.PriceOrder | backend/apps/products/views.py:46-49 | `price_low` lists prices ascending, `price_high` descending. |
| ProductViews.NewestFirst | backend/apps/products/views.py:50-51 | Without `sort`, or with any other value, the newest come first. |
| ProductViews.ProductDetail | backend/apps/products/views.py:64-68 | Finds a row with that slug, available or not. It answers 404 exactly when no row has that slug. |
| ProductViews.DetailFindsUnavailable | backend/apps/products/views.py:66 | With unique slugs the detail view returns that one row, even when it is unavailable. |
| ContentViews.ActiveByOrder | backend/apps/content/views.py:41 | Exactly the active rows, sorted by `order`; the testimonial, commitment and gallery views (lines 56, 71, 153, 168) run the same query. |
| ContentViews.SortedActive | backend/apps/content/views.py:41 | The sorted list of active rows keeps them active, complete and ordered. |
| ContentViews.AsSection | backend/apps/content/views.py:86-90 | A stored row as the single-section endpoints serialise it: its own id, title, content, order and active flag. |
| ContentViews.FirstActiveOr | backend/apps/content/views.py:86-106 | The first active row by `order`, or the fallback exactly when none is active. |
| ContentViews.FirstActive | backend/apps/content/views.py:86 | The first row is active and has the least `order`, and exists when some row is active. |
| ContentViews.AboutUs | backend/apps/content/views.py:84-106 | Always active. A reply with no id is the fixed About Us fallback. |
| ContentViews.OurStory | backend/apps/content/views.py:117-140 | Always active. A reply with no id is the fixed Our Story fallback. |
| ContentViews.FallbackExactlyWhenNoneActive | backend/apps/content/views.py:86-140 | Both single-section endpoints fall back exactly when no row is active. |
| ContentViews.Blogs | backend/apps/content/views.py:181-185 | The active posts, newest first; equal dates by `order`. |
| ContactSerializer.ValidateMessage | backend/apps/content/serializers.py:154-160 | Accepted exactly from 10 to 2000 characters, returned as given. Shorter and longer values get their own errors. |
| ContactSerializer.WritableData | backend/apps/content/serializers.py:143-152 | Only the declared fields are written. `id` and `created_at` are never written. |
| ContactForm.FirstIndex | frontend/src/components/ContactForm.tsx:29 | The first occurrence of a character, or the length when there is none. |
| ContactForm.FirstIndexAt | frontend/src/components/ContactForm.tsx:29 | When `i` holds the character and no earlier index does, the first index is `i`. |
| ContactForm.EmailValidIffPattern | frontend/src/components/ContactForm.tsx:29 | The split test accepts exactly the strings `^[^\s@]+@[^\s@]+\.[^\s@]+$` matches. |
| ContactForm.EmailValidMatches | frontend/src/components/ContactForm.tsx:29 | An accepted email decomposes as the pattern says. |
| ContactForm.PatternIsValid | frontend/src/components/ContactForm.tsx:29 | A string of the pattern's shape is accepted. |
| ContactForm.NameError | frontend/src/components/ContactForm.tsx:21-25 | Fails exactly when the trimmed name is empty or longer than 200 UTF-16 units. |
| ContactForm.EmailError | frontend/src/components/ContactForm.tsx:27-31 | Fails exactly when the trimmed email is empty or the raw email fails the pattern. |
| ContactForm.PhoneError | frontend/src/components/ContactForm.tsx:33-35 | Fails exactly when a phone is given whose trimmed length exceeds 20. |
| ContactForm.SubjectError | frontend/src/components/ContactForm.tsx:37-39 | Fails exactly for an empty subject. |
| ContactForm.MessageError | frontend/src/components/ContactForm.tsx:41-47 | Fails exactly when the trimmed message is empty or shorter than 10 or longer than 2000 units, with the matching text. |
| ContactForm.FieldError | frontend/src/components/ContactForm.tsx:18-47 | Every error recorded for a field has a non-empty message. |
| ContactForm.WithField | frontend/src/components/ContactForm.tsx:88 | Sets only the one field. |
| ContactForm.SubmittedPhone | frontend/src/components/ContactForm.tsx:63 | A blank phone is dropped; otherwise it is sent trimmed. |
| ContactForm.FormAndServerDisagreeOnLength | frontend/src/components/ContactForm.tsx:43 | Five emoji pass the form's minimum length but not the server's. |
| ContactForm.CollectErrors | frontend/src/components/ContactForm.tsx:18-48 | The errors object holds exactly the fields with an error, with their messages. |
| ContactForm.ContactFormState.constructor | frontend/src/components/ContactForm.tsx:9-16 | Starts with the empty form (subject `general`) and no errors. |
| ContactForm.ContactFormState.Validate | frontend/src/components/ContactForm.tsx:18-51 | Records exactly the failing fields with their messages, and returns true exactly when none failed. |
| ContactForm.ContactFormState.HandleSubmit | frontend/src/components/ContactForm.tsx:53-64 | Sends nothing when validation fails; otherwise sends the form with the submitted phone. |
| ContactForm.ContactFormState.OnSubmitSuccess | frontend/src/components/ContactForm.tsx:66-77 | Resets the form and the errors. |
| ContactForm.ContactFormState.HandleChange | frontend/src/components/ContactForm.tsx:87-97 | Sets one field and clears that field's error only. |
| UserSerializers.Get | backend/apps/users/serializers.py:87-91 | `dict.get` with a default. |
| UserSerializers.NormaliseAddress | backend/apps/users/serializers.py:104-110 | Exactly the five keys, each given value kept. Missing keys become `''`, and the country becomes `India`. |
| UserSerializers.GetShippingAddress | backend/apps/users/serializers.py:83-92 | A stored `None` reads as `{}`, then the five keys are read. |
| UserSerializers.NullAddressIsEmpty | backend/apps/users/serializers.py:85 | Stored `None` and stored `{}` show the same address. |
| UserSerializers.NormaliseAddressIdempotent | backend/apps/users/serializers.py:104-110 | A five-key address is its own normal form. |
| UserSerializers.StoredAddressReadsBack | backend/apps/users/serializers.py:83-110 | What `update` stores is what `get_shippingAddress` later shows. |
| UserSerializers.CleanChar | backend/apps/users/serializers.py:20 | `CharField` trimming strips both ends. |
| UserSerializers.Profile.constructor | backend/apps/users/serializers.py:83-85 | A new profile has no phone and an empty address. |
| UserSerializers.Profile.Update | backend/apps/users/serializers.py:94-113 | The phone changes only when validated data has it. The address is replaced by its normal form only when a truthy address was submitted. |
| UserSerializers.ValidatedPhone | backend/apps/users/serializers.py:76 | A phone may be absent, `null` or a cleaned string. |
| UserSerializers.LoginValidate | backend/apps/users/serializers.py:41-55 | Errors: missing credentials exactly when either value is falsy; invalid credentials exactly when `authenticate` fails; a disabled account exactly when it is inactive. Success gives the authenticated active account. |
| UserSerializers.LoginSucceedsExactly | backend/apps/users/serializers.py:45-51 | With both values given, login succeeds exactly for an active account `authenticate` accepts. |
| UserSerializers.SignupErrors | backend/apps/users/serializers.py:18-24 | Errors exactly for a blank password, a cleaned password under 8 characters, a blank or over-long name, or a taken email. |
| UserSerializers.CleanedErrors | backend/apps/users/serializers.py:18-24 | The same on already cleaned values. |
| UserSerializers.PasswordErrors | backend/apps/users/serializers.py:20 | Blank, or shorter than `min_length=8`. |
| UserSerializers.NameErrors | backend/apps/users/serializers.py:18-24 | Blank, or longer than 150. |
| UserSerializers.LastAt | backend/apps/users/serializers.py:27-28 | The index of the last `@`, with no `@` after it, or `None` exactly when there is no `@`. |
| UserSerializers.NormaliseEmail | backend/apps/users/serializers.py:27-28 | `normalize_email`, which `create_user` applies: without an `@` the value is kept; otherwise the stripped value keeps everything up to the last `@` and has the rest lowered. |
| UserSerializers.Signup | backend/apps/users/serializers.py:18-33 | Fails with exactly the field errors when there are any. Otherwise it fails with an integrity error exactly when the normalised email, or the username, is already stored. Otherwise it creates an active user whose username is the cleaned email and whose email is its normalised form, with the cleaned name and the hash of the cleaned password; neither value was stored before. |
| UserSerializers.NormaliseFoldsDomain | backend/apps/users/serializers.py:27-28 | `Ann@EX.in` is stored as `Ann@ex.in`: the local part keeps its case, the domain is lowered. |
| UserSerializers.CaseVariantSignupConflicts | backend/apps/users/models.py:14 | With `Ann@ex.in` stored, signing up as `Ann@EX.in` passes every field check and then breaks the unique `email` column. |
| UserSerializers.PaddedPasswordTooShort | backend/apps/users/serializers.py:20 | Seven spaces and a letter is too short. |
| MigrateCategories.CategorySlugsSpelled | backend/apps/products/management/commands/migrate_to_new_categories.py:29-39 | The slugs are `cookie`, `snack`, `cake`, `sweet`, `hamper`, pairwise distinct. |
| MigrateCategories.ValuesBelow | backend/apps/products/management/commands/migrate_to_new_categories.py:29-35 | The enum values of the first categories. |
| MigrateCategories.SlugsBelow | backend/apps/products/management/commands/migrate_to_new_categories.py:39 | The slugs of the first categories. |
| MigrateCategories.DefaultKeysBelow | backend/apps/products/management/commands/migrate_to_new_categories.py:58-61 | The default-subcategory keys of the first categories. |
| MigrateCategories.CategoriesFresh | backend/apps/products/management/commands/migrate_to_new_categories.py:37-46 | Each category's value and slug are new when the loop reaches it, so `len(category_mapping)` counts the categories already done. |
| MigrateCategories.DefaultKeysFromSlugs | backend/apps/products/management/commands/migrate_to_new_categories.py:56-67 | A default-subcategory key belongs to a category already done. |
| MigrateCategories.MappingBelowFacts | backend/apps/products/management/commands/migrate_to_new_categories.py:37-46 | `category_mapping` has one entry per category done, mapping its value to its slug. |
| MigrateCategories.CategoryMappingSpelled | backend/apps/products/management/commands/migrate_to_new_categories.py:29-46 | Step 1 maps `COOKIE`…`HAMPER` to their lowercase slugs. |
| MigrateCategories.CategoriesAfterFacts | backend/apps/products/management/commands/migrate_to_new_categories.py:37-46 | Step 1 adds exactly the missing slugs, with their name, active and `order` the position. Existing rows stay as they were. |
| MigrateCategories.DefaultsAfterKeeps | backend/apps/products/management/commands/migrate_to_new_categories.py:56-67 | Step 2 adds exactly the missing default subcategories and keeps the existing ones. |
| MigrateCategories.DefaultsAfterCreates | backend/apps/products/management/commands/migrate_to_new_categories.py:57-65 | A created default subcategory is named `<category name> - Default`, is active and has `order` 0. |
| MigrateCategories.SubMappingBelowFacts | backend/apps/products/management/commands/migrate_to_new_categories.py:67 | `subcategory_mapping` maps each category to its default subcategory. |
| MigrateCategories.CategorizedLinks | backend/apps/products/management/commands/migrate_to_new_categories.py:96-115 | Step 3's effect on the products keeps the same product ids. |
| MigrateCategories.CategorizedLinksSets | backend/apps/products/management/commands/migrate_to_new_categories.py:98-113 | A product with a mapped legacy category gets that category and its default subcategory. |
| MigrateCategories.CategorizedLinksKeeps | backend/apps/products/management/commands/migrate_to_new_categories.py:98-118 | Any other product is untouched. |
| MigrateCategories.MigratableCount | backend/apps/products/management/commands/migrate_to_new_categories.py:115 | The migrated count is at most the number of rows. |
| MigrateCategories.UniqueIdsPrefix | backend/apps/products/management/commands/migrate_to_new_categories.py:90 | A prefix of rows with distinct ids has distinct ids. |
| MigrateCategories.StrippedPieces | backend/apps/products/management/commands/migrate_to_new_categories.py:145 | Every kept name is a non-blank stripped piece. |
| MigrateCategories.StrippedPiecesMembers | backend/apps/products/management/commands/migrate_to_new_categories.py:145 | A name is kept exactly when it is the non-blank stripped form of some piece. |
| MigrateCategories.TagNamesClean | backend/apps/products/management/commands/migrate_to_new_categories.py:145 | Every tag name read is non-blank with no white space at either end. |
| MigrateCategories.TagNamesRoundTrip | backend/apps/products/management/commands/migrate_to_new_categories.py:145 | Joining clean names with `,` and parsing gives the names back. |
| MigrateCategories.StrippedPiecesOfClean | backend/apps/products/management/commands/migrate_to_new_categories.py:145 | Clean pieces pass unchanged. |
| MigrateCategories.ReplaceChar | backend/apps/products/management/commands/migrate_to_new_categories.py:152 | `replace` of one character: same length, each occurrence replaced and every other character kept. |
| MigrateCategories.TagSlug | backend/apps/products/management/commands/migrate_to_new_categories.py:152 | The slug has the name's length, no space, no underscore and no upper-case ASCII letter. Other characters are lowered. |
| MigrateCategories.TagSlugIdempotent | backend/apps/products/management/commands/migrate_to_new_categories.py:152 | A slug is its own slug. |
| MigrateCategories.SlugsCollide | backend/apps/products/management/commands/migrate_to_new_categories.py:152-159 | `Gift Box` and `gift_box` share one slug, and so one tag row. |
| MigrateCategories.InsertName | backend/apps/products/management/commands/migrate_to_new_categories.py:151 | Inserting keeps the list strictly sorted and adds exactly the one name. |
| MigrateCategories.SortedUnique | backend/apps/products/management/commands/migrate_to_new_categories.py:151 | Two strictly sorted lists with the same names are equal, so `sorted()` has one possible result. |
| MigrateCategories.SortedNames | backend/apps/products/management/commands/migrate_to_new_categories.py:151 | `sorted(all_tags)` as a function of the set: strictly increasing, with exactly its names. |
| MigrateCategories.SortNames | backend/apps/products/management/commands/migrate_to_new_categories.py:151 | `sorted(all_tags)`: strictly increasing, with the same names. |
| MigrateCategories.AllTagNamesHas | backend/apps/products/management/commands/migrate_to_new_categories.py:140-146 | Each name a selected row lists is in `all_tags`. |
| MigrateCategories.AllTagNamesFrom | backend/apps/products/management/commands/migrate_to_new_categories.py:140-146 | Every name in `all_tags` is listed by some selected row. |
| MigrateCategories.MappedTags | backend/apps/products/management/commands/migrate_to_new_categories.py:181 | At most one tag per listed name. |
| MigrateCategories.MappedTagsMembers | backend/apps/products/management/commands/migrate_to_new_categories.py:181 | A tag is present exactly when some listed name maps to it. |
| MigrateCategories.TaggableCount | backend/apps/products/management/commands/migrate_to_new_categories.py:183-191 | The tagged count is at most the number of rows. |
| MigrateCategories.SlugsOf | backend/apps/products/management/commands/migrate_to_new_categories.py:152 | Holds the slug of every name listed. |
| MigrateCategories.SlugsOfFrom | backend/apps/products/management/commands/migrate_to_new_categories.py:152 | Each such slug is the slug of one of the names. |
| MigrateCategories.TagMappingFacts | backend/apps/products/management/commands/migrate_to_new_categories.py:151-160 | `tag_mapping` maps exactly the processed names, each to its own slug. |
| MigrateCategories.TagsAfterKeeps | backend/apps/products/management/commands/migrate_to_new_categories.py:151-160 | Step 4 adds exactly the missing slugs and keeps existing tags. |
| MigrateCategories.TagsAfterCreates | backend/apps/products/management/commands/migrate_to_new_categories.py:153-159 | A created tag carries the first name with that slug, and is active. |
| MigrateCategories.SetTags | backend/apps/products/management/commands/migrate_to_new_categories.py:177-191 | `tags.set` row by row keeps the same product ids. |
| MigrateCategories.SetTagsSets | backend/apps/products/management/commands/migrate_to_new_categories.py:187-190 | With unique ids, a product ends with exactly the set its row gives it. |
| MigrateCategories.SetTagsKeeps | backend/apps/products/management/commands/migrate_to_new_categories.py:183-191 | A product no row gives a set keeps its links. |
| MigrateCategories.TaggedLinks | backend/apps/products/management/commands/migrate_to_new_categories.py:170-196 | Step 5's effect keeps the same product ids. |
| MigrateCategories.TaggedLinksStep | backend/apps/products/management/commands/migrate_to_new_categories.py:177-191 | One more row handled by step 5. |
| MigrateCategories.TaggedLinksSets | backend/apps/products/management/commands/migrate_to_new_categories.py:180-190 | A selected product with a known tag gets exactly those tags. |
| MigrateCategories.TaggedLinksKeeps | backend/apps/products/management/commands/migrate_to_new_categories.py:183-191 | Every other product keeps its tags. |
| MigrateCategories.TagMapFor | backend/apps/products/management/commands/migrate_to_new_categories.py:151-160 | The final `tag_mapping` maps every collected name to its slug, whatever the order. |
| MigrateCategories.Database.constructor | backend/apps/products/management/commands/migrate_to_new_categories.py:19-25 | Holds the given tables. |
| MigrateCategories.SlugsBelowFrom | backend/apps/products/management/commands/migrate_to_new_categories.py:37-45 | A slug among the first `n` category slugs is the slug of some position below `n`. |
| MigrateCategories.CategoryNameTaken | backend/apps/products/models.py:12 | Step 1's `get_or_create` at position `j` fails: the slug is not stored but the display name is, under another slug. |
| MigrateCategories.CategoryNameTakenAt | backend/apps/products/management/commands/migrate_to_new_categories.py:37-45 | In the table after the first `i` positions, position `i` breaks the unique name exactly when it already does in the table before step 1: the rows step 1 created carry other names. |
| MigrateCategories.CategoriesAfterNamesUnique | backend/apps/products/models.py:12 | Without a conflict, step 1 keeps category names unique. |
| MigrateCategories.CookieNameTaken | backend/apps/products/management/commands/migrate_to_new_categories.py:37-45 | A stored category named `Cookie` under the slug `cookies` is a conflict: step 1 looks for the slug `cookie`, misses it, and `Cookie` is already taken. |
| MigrateCategories.TagNameTaken | backend/apps/products/models.py:72 | Step 4's `get_or_create` for name `k` fails: the slug is not stored, `k` is the first name with that slug, and its name is stored under another slug. |
| MigrateCategories.TagsAfterRowSlugs | backend/apps/products/management/commands/migrate_to_new_categories.py:151-160 | Every tag step 4 created is stored under the slug of its own name. |
| MigrateCategories.TagNameTakenAt | backend/apps/products/management/commands/migrate_to_new_categories.py:151-160 | After the first `i` names, name `i` breaks the unique name exactly when `TagNameTaken` holds of the table before step 4. |
| MigrateCategories.TagsAfterNamesUnique | backend/apps/products/models.py:72 | Without a conflict among the first `n` names, step 4 keeps tag names unique. |
| MigrateCategories.GiftBoxNameTaken | backend/apps/products/management/commands/migrate_to_new_categories.py:151-160 | A stored tag named `Gift Box` under slug `gifts` makes the name `Gift Box` a conflict: its slug `gift-box` is missing. |
| MigrateCategories.NameConflict | backend/apps/products/management/commands/migrate_to_new_categories.py:25 | The command fails when step 1 conflicts, or step 4 does with the tags flag set. |
| MigrateCategories.Database.CreateCategory | backend/apps/products/management/commands/migrate_to_new_categories.py:38-46 | One `get_or_create`: failure exactly on `CategoryNameTaken`, otherwise the table grows to `CategoriesAfter` of one more position. |
| MigrateCategories.Database.CreateCategories | backend/apps/products/management/commands/migrate_to_new_categories.py:26-50 | Step 1: `conflict` holds exactly when some category slug is missing while its display name is already stored under another slug (the `IntegrityError` of `get_or_create` on the unique `name`). Otherwise: five mapping entries, the category table as `CategoriesAfter`, every slug present. |
| MigrateCategories.Database.CreateDefaultSubcategories | backend/apps/products/management/commands/migrate_to_new_categories.py:52-71 | Step 2: five mapping entries, the subcategory table as `DefaultsAfter`. |
| MigrateCategories.Database.MigrateProducts | backend/apps/products/management/commands/migrate_to_new_categories.py:85-122 | Step 3: the count of migratable rows. Links are untouched on a dry run and `CategorizedLinks` otherwise. |
| MigrateCategories.Database.AddNames | backend/apps/products/management/commands/migrate_to_new_categories.py:146 | `all_tags.update` without repeats. |
| MigrateCategories.Database.CollectTagNames | backend/apps/products/management/commands/migrate_to_new_categories.py:136-148 | The gathered names, without repeats, are exactly `all_tags`. |
| MigrateCategories.Database.CreateTags | backend/apps/products/management/commands/migrate_to_new_categories.py:151-164 | Step 4: `conflict` holds exactly when some tag slug is missing, its first name is already stored under another slug, and no earlier name created it (the `IntegrityError` on the unique `name`). Otherwise the tag table is `TagsAfter`, and the mapping sends each name to its slug. |
| MigrateCategories.Database.MigrateProductTags | backend/apps/products/management/commands/migrate_to_new_categories.py:170-198 | Step 5: the count of taggable rows. Links are untouched on a dry run and `TaggedLinks` otherwise. |
| MigrateCategories.Database.MigrateTags | backend/apps/products/management/commands/migrate_to_new_categories.py:126-198 | Steps 4 and 5: `conflict` exactly on a tag name conflict over the sorted collected names. Otherwise the tag table is `TagsAfter` of the old table and those names, and the links are as step 5 leaves them. |
| MigrateCategories.LinksAfter | backend/apps/products/management/commands/migrate_to_new_categories.py:83-198 | The product links after a real run, given the two flags: same products, and unchanged when both flags are false. |
| MigrateCategories.FieldNamed | backend/apps/products/management/commands/migrate_to_new_categories.py:80-81 | `get_field(name)`: the first field of that name, `None` exactly when there is none. |
| MigrateCategories.LegacyColumnAsWritten | backend/apps/products/management/commands/migrate_to_new_categories.py:79-81 | The flag as written (also line 133) is always false, because every field has a `related_model` attribute. |
| MigrateCategories.LegacyColumn | backend/apps/products/management/commands/migrate_to_new_categories.py:130-133 | The intended flag: true only for a non-relation field of that name, false when every such field is a relation. |
| MigrateCategories.LegacyCharFieldMissed | backend/apps/products/management/commands/migrate_to_new_categories.py:79-81 | A product model whose `category` is still a plain column is detected by the intended test and missed as written. |
| MigrateCategories.Database.CategorySteps | backend/apps/products/management/commands/migrate_to_new_categories.py:26-124 | Steps 1 to 3, with step 3 only when its flag is set. `conflict` exactly on a category name conflict; otherwise the counts and tables as the steps leave them. |
| MigrateCategories.Database.RunSteps | backend/apps/products/management/commands/migrate_to_new_categories.py:25-200 | All five steps for given flags. `conflict` holds exactly on `NameConflict`: a category name conflict, or a tag name conflict when the tags flag is set. Otherwise the summary counts are stated exactly, the links are `LinksAfter`'s. With the tags flag the tag table is `TagsAfter` of the sorted collected names; without it the tags are untouched. |
| MigrateCategories.Database.Handle | backend/apps/products/management/commands/migrate_to_new_categories.py:19-213 | For given flags: `Err(IntegrityError)` exactly on `NameConflict`, and then every table is rolled back (the atomic block with no handler). Otherwise a dry run rolls every table back and keeps only the counts, and a real run leaves the tables as the steps do, the tag table included. |
| MigrateCategories.Database.HandleAsWritten | backend/apps/products/management/commands/migrate_to_new_categories.py:19-213 | As written: `Err(IntegrityError)` exactly on a category name conflict, with the category and subcategory tables rolled back. Otherwise the summary is five categories, five subcategories and zeros. Links and tags are unchanged in every case. |
| MigrateCategories.Database.HandleIntended | backend/apps/products/management/commands/migrate_to_new_categories.py:19-213 | With the intended flags: `Err(IntegrityError)` exactly on `NameConflict` with the tags flag `LegacyColumn(fields, "tags")`, and then every table is rolled back. Otherwise five categories and five subcategories are counted, and products are migrated and tagged exactly when `LegacyColumn` finds the column; a dry run restores every table, a real run leaves the category, subcategory and link tables as the steps do. A real run with a legacy `tags` column leaves the tag table as `TagsAfter` of the sorted names; without that column the tags are untouched. |

## Left out

- Money is an exact integer number of paise, so `Decimal` arithmetic and the `float(amount)` conversion have no rounding here. The "Invalid amount format" path of `create_payment_order_view` is not modelled, because the amount arrives already a number.
- Concurrency: two requests interleaving inside a view are not modelled. The comment in `create_payment_order_view` mentions `select_for_update`, but the query does not use it, and the model runs each request alone.
- The Razorpay SDK is replaced by parameters (`configured`, `gateway`, `check`, `valid`), and so is the check that the key starts with `rzp_`. HMAC signatures are opaque predicates.
- DRF type coercion of request values is not modelled: quantities are JSON numbers, absent or `null`, and a quantity string in an order either parses as an integer or does not.
- Database column maximum lengths and the `PositiveIntegerField` check are not modelled, except the order item's non-negative quantity, which the model refuses.
- `str.lower()` and `icontains` fold only ASCII letters; full Unicode case folding is not modelled.
- The `tag` filter of `product_list_view` (`tags__icontains`) is not modelled, because `tags` is a relation once the migration has run and the text match over it has no single meaning.
- `get_response` in the middleware and the serializer output of each view are left out; the model stops at the data the view computes.
- React's asynchronous state updates, toasts and the network call of `ContactForm.tsx` are left out. `HandleSubmit` returns the data it would send, and `OnSubmitSuccess` is the success callback.
- UserSerializers.Signup: `normalize_username` (Unicode NFKC normalisation of the username) is not modelled, and `NormaliseEmail` lowers the domain with the ASCII-only `ToLower`. The `IntegrityError` is the 500 the view answers; the model returns it as its own failure.
- UserSerializers.SignupErrors: the email format validator of `EmailField` is not modelled, only the uniqueness of the email.
- The order of rows with equal sort keys (ties in `order_by`) is left unspecified.
- A JSON body whose `payload` or `payment` is not an object raises an `AttributeError` in the webhook; the model reads only bodies of the expected shape, or bodies that do not parse.
- MigrateCategories.Database.MigrateProducts: the `hasattr(product, 'category_new')` and `hasattr(product, 'tags_new')` branches write the same relation under two field names; the model has one relation for both.
- The command's stdout messages, including the summary it prints only on a real run, are not modelled; `Handle` returns the counts instead. Raw-SQL failures (the `except Exception` paths) are not modelled.
- `PaymentVerificationRequestSerializer` is not defined in `payments/serializers.py`. As written, the import at `payments/views.py:17-21` therefore fails. `config/urls.py:34` includes `apps.payments.urls`, which imports those views, so the root URLconf cannot load and every endpoint of the back end fails, not only the payment ones. The model assumes a serializer with three required fields, `paymentId`, `orderId` and `signature`, and verifies that request.
- PaymentModels.Payment: `payments/models.py` declares no `razorpay_payment_id`, `razorpay_signature` or `webhook_received`. The record holds them as the views evidently intend. `WebhookAsWritten` and `VerifyAsWritten` model the code against the declared model (see Findings).
- `order_list_view` is not modelled. Orders, carts, cart items and payments are keyed by counters in place of UUIDs.
- CartViews.CartStore.AddToCart, ProductViews.ProductList and OrderViews.RequestedProduct take any string as a product or category id. In the code, a string that is not a UUID raises `ValidationError` in the query. That error answers 500 in `add_to_cart_view`, which catches only `DoesNotExist`, and 500 in `product_list_view`. In `create_order_view` it becomes "Failed to create order: …". The model looks the string up and finds nothing.
- PaymentViews.CreateOutcome: the serializer's other checks are not modelled. These are trimming the currency before the blank and length checks, and checking that `orderId` parses as a UUID. Its field errors are one `InvalidRequest`.
- PaymentViews.PaymentStore.CreatePaymentOrder follows `CreateOutcome` and so shares its serializer step, with the same gaps.
- OrderViews.CreateOutcome: `CreateOrderSerializer` also refuses a request without `items`, `customerDetails` or `shippingAddress`, and an item value that is `null`. The model's request always has the three parts, and a missing item key reads as `None`. The serializer trims item values before the view sees them; the model looks ids up as sent.
- PaymentViews.WebhookIdempotent is proved of the intended handler `WebhookOutcome`. As written no webhook is ever processed (`WebhookAsWritten`).
- PaymentViews.PaymentStore.HandleWebhook performs the intended handler; the handler as written is the function `WebhookAsWritten`.
- MigrateCategories.Database.RunSteps takes the two flags as parameters. They are the intended ones in `HandleIntended` and always false in `HandleAsWritten`.
- MigrateCategories.Database.Handle takes the two flags as parameters, like `RunSteps`. What the command does as written is `HandleAsWritten`.
- A webhook body that is not valid UTF-8 raises `UnicodeDecodeError`, which is not a `JSONDecodeError`, so the code answers 500. The model has one `NotJson` body, answered 400 as for malformed JSON.
- OrderViews.ErrorText: `InvalidDeliveryDate` carries the day-out-of-range text. `parse_date` raises other texts for a month or a year out of range. The `DuplicateOrderNumber` and `NegativeQuantity` texts are placeholders: the view sends the database driver's own exception text, which differs between PostgreSQL and SQLite and is not modelled.

## Findings

| source | as written | input that shows it | evidently intended | confidence | as-written member | corrected member |
|---|---|---|---|---|---|---|
| backend/apps/payments/views.py:354 | `Payment` declares no `razorpay_payment_id` or `webhook_received`, so reading them on a loaded row raises `AttributeError`, answered 500 by `except Exception` | a correctly signed `payment.captured` webhook naming the gateway order id of a stored payment | the fields exist, the payment is set `SUCCESS` and the order `PAID` | not executed | PaymentViews.WebhookAsWritten | PaymentViews.WebhookOutcome |
| backend/apps/payments/views.py:276-278 | `razorpay_payment_id` and `razorpay_signature` are set on the instance, but `save()` writes declared fields only, so they are lost | a verification with a good signature for a payment with no gateway payment id | both ids are stored with the `SUCCESS` status | not executed | PaymentViews.VerifyAsWritten | PaymentViews.VerifyOutcome |
| backend/apps/products/management/commands/migrate_to_new_categories.py:81 | `not hasattr(field, 'related_model')` is false for every Django field, so both flags (also line 133) are false and steps 3 and 5 never run | a `Product` whose `category` is still a plain character column | the flag is true for a field that is not a relation (`not field.is_relation`) | not executed | MigrateCategories.Database.HandleAsWritten | MigrateCategories.Database.HandleIntended |
