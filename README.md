# Cart-to-order core of a Django shop, in Dafny

This project models the path from a shopping cart to a paid order in the
`core` application of the E-commerce repository. It covers:

- the cart engine (`core/services/cart.py`);
- the checkout engine (`core/services/checkout.py`);
- the mock payment engine (`core/services/payment.py`);
- the fields, defaults, constraints and helpers of the models these engines
  use (`core/models.py`).

The database is one object, `Database.Store`. It has one field per table:

- products, carts, orders and addresses are maps from primary key to row;
- payments are a map keyed by their order, since the one-to-one field makes
  the order the payment's key;
- order items are each order's list of items, keyed by the order;
- the cart-item table is a sequence of rows in ascending primary-key order,
  which `Valid` requires (`IdsAscending`): rows are appended with the next
  key, and no update reorders them.

`Store.Valid` collects:

- the model constraints: price at least 0.01, stock a natural number, one
  cart item per (cart, product) and one order item per (order, product);
- at least one unit per line. The `PositiveIntegerField`s admit 0, but the
  services never store it: `add_to_cart` rejects it, and setting or
  updating to 0 deletes the item;
- cart-item keys that are unique and ascend along the table, and lie below
  the next key the database assigns;
- the foreign keys;
- the one-to-one key of payments: every payment belongs to an order.

`Valid` leaves statuses free, since the admin may set an order Shipped or
Delivered, or a payment Refunded or Failed. The services keep one more
fact, `PaidInStep`: an order is Paid exactly when it has a Paid payment.
Payment and checkout are proved to keep it, but no service requires it.

Each service function is a method on the store. It names in its `modifies`
clause exactly the tables it writes. So it follows from the frames alone
that only checkout changes products, and only payment changes payments.

Every service but `remove_cart_item` and `cart_summary` is a database
transaction. Those two raise only before any write, and `cart_summary`
writes nothing. So every failing method ensures `unchanged(s)`. `set_item_quantity` may create the cart before it
raises, and then the model rolls that cart back.

Money is held in integer cents, since every `DecimalField` has two places.
The clock is a parameter (`now`).

Cart contracts are stated through `QuantityInCart`, the quantity the
cart-item table records for one (cart, product) pair, with 0 meaning no
item. `QuantityBecomes` says that one pair gets a given quantity and every
other pair keeps its own.

Checkout is split into its stages:

- `Validate` and `CheckLines` cover steps 1-4 and write nothing;
- `TakeStock` and `DecrementStock` cover step 6;
- `CreateOrder` covers steps 5 and 7;
- `ConvertCart` covers step 8.

`Verdict` states which error the ordered checks give.

`TakeStock` runs the source's loop. It is specified by two recursive
functions, `Snapshots` and `Taken`, and `TakenIsStockTaken` proves what these
mean: every line's product loses exactly that line's quantity, and nothing
else changes.

The payment engine is the function `Pay`, a small state machine, with
`SimulatePayment` proved equal to it. When the order already has a Pending
payment, the source does not return early. It goes on to
`Payment.objects.create`, which the one-to-one key on the order refuses. The
model makes this outcome an explicit failure, `DuplicatePayment`, with
nothing changed.

## Model

| member | source | states |
|---|---|---|
| Models.Cart.IsActive | core/models.py:150-152 | a cart is active exactly when its status is neither Converted nor Abandoned, i.e. it is Active |
| Models.NewCart | core/models.py:132-136 | a cart created for a user belongs to that user and has the default status Active |
| Models.ActiveCartsOf | core/services/cart.py:32-38 | the set of a user's Active carts holds exactly the carts the query filters for |
| Models.SingleActiveCartsAtMostOne | core/services/cart.py:27-31 | under the one-active-cart rule a user has at most one Active cart |
| Models.SingleActiveCartsAdd | core/services/cart.py:39-41 | adding an Active cart for a user who has none keeps the one-active-cart rule |
| Models.SingleActiveCartsRetire | core/services/checkout.py:96-98 | giving a cart a non-Active status keeps the one-active-cart rule |
| Models.FromAddress | core/models.py:240-255 | the order copies cep, street, number, complement, district, city and state unchanged into its shipping fields; it belongs to the user; status Pending, total 0.00 and no cart are the defaults (core/models.py:197-217) |
| Models.Subtotal | core/models.py:299-301 | unit price times quantity, 0 without a unit price; at least the quantity when the price is at least 0.01 |
| Models.LinesTotalLowerBound | core/models.py:281-286 | items with quantity at least 1 and unit price at least 0.01 total at least their number, so a non-empty order never totals 0.00 |
| Models.NewPayment | core/models.py:328-335 | a payment row made with defaults has status Pending and no payment time |
| Tables.FindByKey | core/services/cart.py:98 | finds the position of the row for (cart, product), or reports that no row has that pair |
| Tables.FindById | core/services/cart.py:176-180 | finds the position of the row with a primary key, or reports that no row has it |
| Tables.ItemsOf | core/services/checkout.py:43 | a row is among the cart's items exactly when it is in the table and belongs to the cart |
| Tables.WithoutCart | core/services/checkout.py:99 | a row remains exactly when it was in the table and belongs to another cart |
| Tables.SetQuantityAtSame | core/services/cart.py:115 | writing back a row's own quantity leaves the table as it was |
| Tables.DeleteAtKeeps | core/services/cart.py:122 | deleting one row keeps every other row |
| Tables.DeleteAt | core/services/cart.py:109 | the table without one row: one row shorter, the other rows in order |
| Tables.SetQuantityAt | core/services/cart.py:115 | only the quantity of one row changes |
| Tables.FindByKeyUnique | core/models.py:170-176 | with unique (cart, product) keys the lookup of a row's key finds that row |
| Tables.QuantityAfterAppend | core/services/cart.py:105 | inserting a row for a new pair gives that pair the row's quantity and changes no other pair |
| Tables.QuantityAfterSet | core/services/cart.py:75 | updating a row's quantity changes the quantity of its pair only |
| Tables.QuantityAfterDelete | core/services/cart.py:122 | deleting a row leaves its pair at 0 and changes no other pair |
| Tables.ConstraintsAfterAppend | core/models.py:168-176 | inserting a row for a pair not yet present, with a key above every key in use and quantity at least 1, keeps the constraints |
| Tables.ConstraintsAfterSet | core/models.py:168-176 | setting a positive quantity keeps the constraints |
| Tables.ConstraintsAfterDelete | core/models.py:168-176 | deleting a row keeps the constraints |
| Tables.ConstraintsWithoutCart | core/services/checkout.py:99 | deleting all rows of a cart keeps the constraints |
| Tables.AscendingAfterAppend | core/services/cart.py:63-67 | appending a row with a key above every key in use keeps the table in ascending key order |
| Tables.AscendingAfterSet | core/services/cart.py:75 | changing a row's quantity keeps the table in ascending key order |
| Tables.AscendingAfterDelete | core/services/cart.py:109 | deleting one row keeps the table in ascending key order |
| Tables.AscendingWithoutCart | core/services/checkout.py:99 | deleting all rows of a cart keeps the table in ascending key order |
| Tables.ItemsOfDistinctProducts | core/models.py:170-176 | the items of one cart name each product at most once |
| Database.Store.RecalcTotal | core/models.py:257-264 | returns the sum of the order items' subtotals; with `save` that sum is the order's new total and nothing else changes; without it the table is unchanged |
| CartService.GetOrCreateActiveCart | core/services/cart.py:26-41 | returns an Active cart of the user; one the user had when there was one (tables unchanged), otherwise a single new Active cart and no other change |
| CartService.CreateItem | core/services/cart.py:105 | inserts one row with the next key; the pair gets the quantity |
| CartService.UpdateItem | core/services/cart.py:115 | the row's pair gets the new quantity, nothing else changes |
| CartService.DeleteItem | core/services/cart.py:109 | the row's pair is left at 0, nothing else changes |
| CartService.AddToCart | core/services/cart.py:44-80 | quantity <= 0: InvalidQuantity; missing or inactive product: ProductUnavailable; stock below the quantity or below the resulting quantity: ProductUnavailable with the stock; all failures change nothing; success adds the quantity to the pair in the Active cart, within stock, and changes no other pair: a new row with the next key when the cart had no item for the product, otherwise that row's quantity updated in place, every other row as it was |
| CartService.SetItemQuantity | core/services/cart.py:83-116 | negative: InvalidQuantity; missing or inactive product: ProductUnavailable; fails exactly when the stock is below the quantity, and then changes nothing (the cart it may have created is rolled back); success makes the pair's quantity exactly the given one: a new row with the next key, that row updated in place, or that row deleted for 0, every other row as it was; setting the quantity the pair already has, 0 without an item included, leaves the table unchanged |
| CartService.RemoveFromCart | core/services/cart.py:119-123 | the pair of the Active cart is left at 0: its row is deleted and every other row stays in the table, in order; with no item the table is unchanged, so the call is idempotent |
| CartService.RemoveCartItem | core/services/cart.py:170-182 | no Active cart or several: the lookup's errors; an item not in the Active cart: not found; otherwise exactly that row is deleted |
| CartService.UpdateCartItemQuantity | core/services/cart.py:185-206 | an item not in the user's Active cart: not found; quantity <= 0 deletes it and returns none; inactive product or quantity above stock: error, nothing changed; otherwise the quantity is set exactly and the updated item returned |
| CartService.CartSummary | core/services/cart.py:126-166 | changes nothing; one line per item of the cart, in order, with its id, product, name, price, quantity and subtotal price times quantity; the total is the sum of the subtotals |
| CheckoutService.FirstOutOfStock | core/services/checkout.py:56-60 | returns the first line whose quantity exceeds its product's stock, or none when every line fits |
| CheckoutService.Snapshot | core/services/checkout.py:75-83 | the order item has the line's product and quantity and the product's current price |
| CheckoutService.ProductIds | core/services/checkout.py:47 | exactly the products the lines name |
| CheckoutService.Snapshots | core/services/checkout.py:72-83 | one order item per line, in order, each priced at the product's price |
| CheckoutService.TakenKeys | core/services/checkout.py:87-88 | taking stock neither adds nor removes products |
| CheckoutService.TakenElsewhere | core/services/checkout.py:74-88 | a product on no line keeps its row |
| CheckoutService.TakenAt | core/services/checkout.py:87-88 | when no other line names the same product, a line's product loses exactly that line's quantity |
| CheckoutService.TakenIsStockTaken | core/services/checkout.py:74-88 | when no product is on two lines, each line's product loses exactly that line's quantity and every other product is unchanged |
| CheckoutService.StockTakenKeepsPrices | core/services/checkout.py:87-88 | taking stock removes no product and changes no price or name |
| CheckoutService.TakeStock | core/services/checkout.py:70-88 | the loop leaves the catalog with each line's quantity taken off, the order items built, and the total accumulated to their sum |
| CheckoutService.CheckLines | core/services/checkout.py:47-60 | an inactive or missing product: InvalidCart; otherwise the first line short of stock: OutOfStock with that product's name and stock; success exactly when neither is found |
| CheckoutService.Validate | core/services/checkout.py:31-60 | the checks in order: address not the user's, cart not the user's Active cart, empty cart, then the lines; writes nothing |
| CheckoutService.Checkout | core/services/checkout.py:18-101 | any failed check changes nothing; on success each product's stock falls by exactly its line's quantity and stays a natural number, other products unchanged; one order item per line at the product's price; a new Pending order with the address snapshot, the cart, and total equal to the sum of the items' subtotals; the cart Converted and empty |
| CheckoutService.PlaceOrder | core/services/checkout.py:62-99 | after the checks: stock taken, the order and its items inserted, the cart converted and emptied |
| CheckoutService.DecrementStock | core/services/checkout.py:74-90 | the stock loop keeps the store's constraints, and its order items meet the order-item constraints |
| CheckoutService.SnapshotsConstraints | core/models.py:281-294 | the order items of one cart's lines have quantity at least 1, a unit price at least 0.01 and distinct products |
| CheckoutService.CreateOrder | core/services/checkout.py:62-68 | a fresh order key; the order from the address snapshot with its cart and total; its items stored under it; `PaidInStep` is kept, since the new order is Pending and has no payment |
| CheckoutService.ConvertCart | core/services/checkout.py:96-99 | the cart gets status Converted and has no items left; other carts' items are unchanged |
| CheckoutService.NoneLeft | core/services/checkout.py:99 | after the delete the cart has no items |
| CheckoutService.SummaryTotalIsOrderTotal | core/services/cart.py:136-143 | the total the cart summary shows equals the total checkout gives the order when prices have not changed in between (core/services/checkout.py:85) |
| PaymentService.Pay | core/services/payment.py:9-52 | a failed payment changes neither table |
| PaymentService.SimulatePayment | core/services/payment.py:9-52 | the answer and the new order and payment tables are those of `Pay`; a failure changes nothing; the store's constraints hold after, and so does `PaidInStep` when it held before |
| PaymentService.PaySucceeds | core/services/payment.py:26-50 | on success the order is the user's and the returned payment is its Paid payment; either that payment was there already and nothing changes, whatever the order's status, or the order was Pending with no payment, the payment is new with the given method and time, and the order alone becomes Paid |
| PaymentService.PayReturnsExisting | core/services/payment.py:26-30 | for the user's order with a Paid payment, in any state of the tables, the call returns that payment and changes nothing |
| PaymentService.PayFails | core/services/payment.py:19-50 | a missing order or another user's: NotFound; a Failed or Refunded payment: NotPayable; an order not Pending (with no payment or a Pending one): NotPending; a Pending payment on a Pending order: DuplicatePayment, the second row the one-to-one key at core/models.py:317 refuses; each leaves both tables unchanged; success exactly for the user's order with a Paid payment, or with none while the order is Pending |
| PaymentService.PayIdempotent | core/services/payment.py:26-30 | after a successful payment a second call returns the same payment and changes nothing, whatever method and time it is given |
| PaymentService.PayOnlyPendingToPaid | core/services/payment.py:36-50 | a payment touches only its own order, and its only change moves the order from Pending to Paid |
| PaymentService.PayKeepsPaymentTable | core/models.py:317-321 | the payment table stays keyed by existing orders, and when every order was Paid exactly when its payment was Paid, that still holds |

## Left out

- Locking and concurrency (`select_for_update`) are not modelled. Each service is one sequential, all-or-nothing step.
- `get_or_create_active_cart` orders by `updated_at` and takes the most recent Active cart. Timestamps are not modelled, so the model returns some Active cart of the user.
- The cart timestamp touch in `add_to_cart` (core/services/cart.py:78-79) is left out. `update()` with no arguments issues no UPDATE, and `auto_now` is applied only by `save()`, so the line writes nothing.
- `created_at` and `updated_at` are left out. So is the text of `transaction_id`, which is made from the clock. `paid_at` is the caller's `now`.
- The one-active-cart rule is stated in a docstring but not enforced by the schema. It is not part of `Store.Valid`. Instead, `SingleActiveCarts` is proved to be preserved by every service that writes carts. `remove_cart_item` models both outcomes of `Cart.objects.get` when the rule does not hold.
- `max_digits=10` is not modelled as a bound on prices and totals. Amounts are unbounded integers of cents.
- `cart_summary` leaves out the image URL, slug and category, which call storage and lookups that are not part of this model.
- Neither cart items nor the cart's `items` relation declare an ordering. The model takes the table's primary-key order, which `Valid` keeps, both for the summary lines and for the order in which checkout's stock check finds "the first" short line.
- The messages of the exceptions are not modelled. The data they carry is: the stock in `ProductUnavailable`, `InsufficientStock` and `OutOfStock`, and the product's name in `OutOfStock`.
- `add_to_cart`'s default argument `quantity=1` is not modelled. The method takes the quantity explicitly.
- `recalc_total`'s default argument `save=True` is not modelled. `RecalcTotal` takes `save` explicitly.
- The payment method is stored as the string the caller passes, as `Payment.objects.create` does. The three `Method` choices are checked only by the views, which are not part of this model.
- Database.Store.RecalcTotal: describes the stored row only. Without `save`, the source still assigns the total on the in-memory `Order` object, which the model does not have.
- The one-to-one link from an order to its cart (core/models.py:210-217) is not a constraint of the model. Checkout converts the cart, so the cart cannot be checked out again.
- Guest carts (`user` null) have a field in the model, but no service creates them.
- Views, URLs, forms and admin are not part of this model. Neither are the `Category`, `CustomerProfile` and `Address` models beyond the address fields the checkout copies.
