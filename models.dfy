/** The rows of the store's tables as the Django models declare them: their
    fields, defaults and constraints, and the small pieces of logic the models
    carry (the address snapshot, the line subtotal, the active-cart test).
    Every DecimalField has two decimal places, so money is held exactly in
    integer cents. */
module Models {
  import opened Wrappers

  type UserId = int
  type ProductId = int
  type CartId = int
  type ItemId = int
  type OrderId = int
  type AddressId = int
  /** An amount of money in cents: a two-place decimal times 100. */
  type Cents = int
  /** A point in time, supplied by the caller in place of `timezone.now()`. */
  type Timestamp = int

  /** The validator on product and order-item prices: at least 0.01. */
  const MinPrice: Cents := 1

  // ---------------------------------------------------------------- catalog

  datatype Product = Product(name: string, price: Cents, stock: nat, isActive: bool)

  /** What `Product.objects.filter(id=..., is_active=True).first()` finds. */
  predicate Available(products: map<ProductId, Product>, id: ProductId)
  {
    id in products && products[id].isActive
  }

  // ------------------------------------------------------------------ carts

  datatype CartStatus = Active | Converted | Abandoned

  /** The status field's default. */
  const DefaultCartStatus: CartStatus := Active

  /** A cart; the owner is optional to leave room for guest carts. */
  datatype Cart = Cart(owner: Option<UserId>, status: CartStatus)
  {
    /** `Cart.is_active`: the cart is neither converted nor abandoned. */
    predicate IsActive()
      ensures IsActive() <==> status != Converted && status != Abandoned
    {
      status == Active
    }
  }

  /** The row `Cart.objects.create(user=user, status=ACTIVE)` inserts. */
  function NewCart(user: UserId): (c: Cart)
    ensures c.owner == Some(user) && c.IsActive() && c.status == DefaultCartStatus
  {
    Cart(Some(user), Active)
  }

  /** `c` is an Active cart owned by `user`. */
  predicate IsActiveCartOf(carts: map<CartId, Cart>, user: UserId, c: CartId)
  {
    c in carts && carts[c].owner == Some(user) && carts[c].IsActive()
  }

  predicate HasActiveCart(carts: map<CartId, Cart>, user: UserId)
  {
    exists c :: c in carts && IsActiveCartOf(carts, user, c)
  }

  /** The rule the cart engine keeps without a database constraint: no user
      owns two Active carts. */
  ghost predicate SingleActiveCarts(carts: map<CartId, Cart>)
  {
    forall u, c1, c2 :: IsActiveCartOf(carts, u, c1) && IsActiveCartOf(carts, u, c2) ==> c1 == c2
  }

  /** The carts `Cart.objects.filter(user=user, status=ACTIVE)` selects. */
  function ActiveCartsOf(carts: map<CartId, Cart>, user: UserId): (r: set<CartId>)
    ensures forall c :: c in r <==> IsActiveCartOf(carts, user, c)
  {
    set c | c in carts && IsActiveCartOf(carts, user, c)
  }

  /** Under the rule, a lookup of a user's Active cart never finds two. */
  lemma SingleActiveCartsAtMostOne(carts: map<CartId, Cart>, user: UserId)
    requires SingleActiveCarts(carts)
    ensures |ActiveCartsOf(carts, user)| <= 1
  {
    var active := ActiveCartsOf(carts, user);
    if active != {} {
      var a :| a in active;
      assert active == {a} by {
        forall b | b in active ensures b == a {
          assert IsActiveCartOf(carts, user, a) && IsActiveCartOf(carts, user, b);
        }
      }
    }
  }

  /** Adding a fresh Active cart for a user who has none keeps the rule. */
  lemma SingleActiveCartsAdd(carts: map<CartId, Cart>, user: UserId, c: CartId)
    requires SingleActiveCarts(carts) && !HasActiveCart(carts, user)
    ensures SingleActiveCarts(carts[c := NewCart(user)])
  {
    var carts' := carts[c := NewCart(user)];
    forall u, c1, c2 | IsActiveCartOf(carts', u, c1) && IsActiveCartOf(carts', u, c2)
      ensures c1 == c2
    {
      if c1 != c && c2 != c {
        assert IsActiveCartOf(carts, u, c1) && IsActiveCartOf(carts, u, c2);
      } else if c1 != c || c2 != c {
        assert HasActiveCart(carts, user);
        assert false;
      }
    }
  }

  /** Retiring a cart (any status other than Active) keeps the rule. */
  lemma SingleActiveCartsRetire(carts: map<CartId, Cart>, c: CartId, status: CartStatus)
    requires SingleActiveCarts(carts) && c in carts && status != Active
    ensures SingleActiveCarts(carts[c := carts[c].(status := status)])
  {
    var carts' := carts[c := carts[c].(status := status)];
    forall u, c1, c2 | IsActiveCartOf(carts', u, c1) && IsActiveCartOf(carts', u, c2)
      ensures c1 == c2
    {
      assert IsActiveCartOf(carts, u, c1) && IsActiveCartOf(carts, u, c2);
    }
  }

  /** A row of the cart-item table. */
  datatype CartItem = CartItem(id: ItemId, cart: CartId, product: ProductId, quantity: nat)

  /** The item is the one for (cart, product). */
  predicate HasKey(it: CartItem, cart: CartId, product: ProductId)
  {
    it.cart == cart && it.product == product
  }

  /** The cart-item table's constraints: unique primary keys,
      `unique_product_per_cart`, and (kept by every service that stores a
      quantity) no quantity below one. */
  ghost predicate CartItemsConstraints(items: seq<CartItem>)
  {
    && (forall it :: it in items ==> it.quantity >= 1)
    && (forall i, j :: 0 <= i < j < |items| ==> items[i].id != items[j].id)
    && UniqueKeys(items)
  }

  /** `unique_product_per_cart`: no two items share a key. */
  ghost predicate UniqueKeys(items: seq<CartItem>)
  {
    forall i, j :: 0 <= i < j < |items| ==> !HasKey(items[j], items[i].cart, items[i].product)
  }

  // ---------------------------------------------------------------- address

  /** A saved address of a customer (`is_default` and timestamps left out). */
  datatype Address = Address(owner: UserId, cep: string, street: string, number: string,
                             complement: string, district: string, city: string, state: string)

  /** The `shipping_*` fields of an order. */
  datatype Shipping = Shipping(cep: string, street: string, number: string, complement: string,
                               district: string, city: string, state: string)

  // ----------------------------------------------------------------- orders

  datatype OrderStatus = Pending | Paid | Shipped | Delivered | Canceled

  /** An order; `cart` is the nullable back-reference to the cart it came from. */
  datatype Order = Order(owner: UserId, status: OrderStatus, total: Cents,
                         cart: Option<CartId>, shipping: Shipping)

  /** `Order.from_address`: a new order for `user` whose shipping fields are a
      copy of the address, every other field at its default (status Pending,
      total 0.00, no cart). */
  function FromAddress(user: UserId, address: Address): (o: Order)
    ensures o.owner == user && o.status == OrderStatus.Pending && o.total == 0 && o.cart == None
    ensures o.shipping.cep == address.cep && o.shipping.street == address.street
    ensures o.shipping.number == address.number && o.shipping.complement == address.complement
    ensures o.shipping.district == address.district && o.shipping.city == address.city
    ensures o.shipping.state == address.state
  {
    Order(user, OrderStatus.Pending, 0, None,
          Shipping(address.cep, address.street, address.number, address.complement,
                   address.district, address.city, address.state))
  }

  /** A row of the order-item table of one order. `unitPrice` is absent only
      on an item that was never given one. */
  datatype OrderItem = OrderItem(product: ProductId, quantity: nat, unitPrice: Option<Cents>)

  /** `OrderItem.subtotal`: unit price times quantity, 0.00 without a price. */
  function Subtotal(item: OrderItem): (r: Cents)
    ensures item.unitPrice.None? ==> r == 0
    ensures item.unitPrice.Some? ==> r == item.unitPrice.value * item.quantity
    ensures item.unitPrice.Some? && item.unitPrice.value >= MinPrice ==> r >= item.quantity
  {
    match item.unitPrice
    case None => 0
    case Some(price) => price * item.quantity
  }

  /** The sum of the subtotals of some order items. */
  function LinesTotal(items: seq<OrderItem>): (r: Cents)
  {
    if items == [] then 0 else LinesTotal(items[..|items| - 1]) + Subtotal(items[|items| - 1])
  }

  /** One more item adds its subtotal to the total. */
  lemma LinesTotalAppend(items: seq<OrderItem>, x: OrderItem)
    ensures LinesTotal(items + [x]) == LinesTotal(items) + Subtotal(x)
  {
    assert (items + [x])[..|items|] == items;
  }

  /** The constraints of one order's items: `unique_product_per_order` and
      a unit price of at least 0.01, from the model; and a quantity of at
      least one, which the model admits as 0 but checkout never stores. */
  ghost predicate OrderItemsConstraints(items: seq<OrderItem>)
  {
    && (forall it :: it in items ==>
          it.quantity >= 1 && it.unitPrice.Some? && it.unitPrice.value >= MinPrice)
    && (forall i, j :: 0 <= i < j < |items| ==> items[i].product != items[j].product)
  }

  /** Items that satisfy the order-item constraints add up to a total that is
      at least their number, so a non-empty order never totals 0.00. */
  lemma {:induction false} LinesTotalLowerBound(items: seq<OrderItem>)
    requires forall it :: it in items ==>
               it.quantity >= 1 && it.unitPrice.Some? && it.unitPrice.value >= MinPrice
    ensures LinesTotal(items) >= |items|
  {
    if items != [] {
      var init := items[..|items| - 1];
      assert forall it :: it in init ==> it in items;
      LinesTotalLowerBound(init);
      assert items[|items| - 1] in items;
    }
  }

  // --------------------------------------------------------------- payments

  datatype PaymentStatus = Pending | Paid | Failed | Refunded

  /** The status field's default. */
  const DefaultPaymentStatus: PaymentStatus := PaymentStatus.Pending

  /** A payment row (its order is the key of the payment table); `via` is
      the `method` column, the name of the means of payment. */
  datatype Payment = Payment(via: string, status: PaymentStatus, paidAt: Option<Timestamp>)

  /** A payment row made with every field but the method at its default:
      status Pending, no payment time. */
  function NewPayment(via: string): (p: Payment)
    ensures p.via == via && p.status == DefaultPaymentStatus && p.status == PaymentStatus.Pending
    ensures p.paidAt == None
  {
    Payment(via, DefaultPaymentStatus, None)
  }
}
