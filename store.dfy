/** The database the services work on: one table per model. Products, carts,
    orders and addresses are maps from primary key to row; payments are keyed
    by their order; order items are each order's list, keyed by the order;
    the cart-item table is a sequence of rows in ascending primary-key order.
    `Valid` collects the constraints of the models (checks, uniqueness,
    foreign keys) and the facts the services keep. */
module Database {
  import opened Wrappers
  import opened Models
  import opened Tables

  /** Every product costs at least the smallest price. */
  ghost predicate Priced(products: map<ProductId, Product>)
  {
    forall p :: p in products ==> products[p].price >= MinPrice
  }

  /** The cart tables: keys below the next ones, the cart-item constraints,
      rows in ascending key order, and every row's cart and product exist. */
  ghost predicate CartTables(carts: map<CartId, Cart>, cartItems: seq<CartItem>, catalog: set<ProductId>,
                             nextCartId: CartId, nextItemId: ItemId)
  {
    && (forall c :: c in carts ==> c < nextCartId)
    && CartItemsConstraints(cartItems)
    && IdsAscending(cartItems)
    && (forall it :: it in cartItems ==> it.id < nextItemId && it.cart in carts && it.product in catalog)
  }

  /** Retiring a cart and deleting its rows keeps the cart tables. */
  lemma CartTablesWithoutCart(carts: map<CartId, Cart>, cartItems: seq<CartItem>, catalog: set<ProductId>,
                              nextCartId: CartId, nextItemId: ItemId, cart: CartId, status: CartStatus)
    requires CartTables(carts, cartItems, catalog, nextCartId, nextItemId) && cart in carts
    ensures CartTables(carts[cart := carts[cart].(status := status)], WithoutCart(cartItems, cart),
                       catalog, nextCartId, nextItemId)
  {
    ConstraintsWithoutCart(cartItems, cart);
    AscendingWithoutCart(cartItems, cart);
  }

  /** The order tables: keys below the next one, one item list per order,
      the order-item constraints, and every item's product exists. */
  ghost predicate OrderTables(orders: map<OrderId, Order>, orderItems: map<OrderId, seq<OrderItem>>,
                              catalog: set<ProductId>, nextOrderId: OrderId)
  {
    && (forall o :: o in orders ==> o < nextOrderId)
    && orderItems.Keys == orders.Keys
    && (forall o :: o in orderItems ==> OrderItemsConstraints(orderItems[o]))
    && (forall o, it :: o in orderItems && it in orderItems[o] ==> it.product in catalog)
  }

  /** Every payment belongs to an order: the one-to-one field makes the
      order the payment's key. Statuses are left free, since the admin may
      set an order Shipped or Delivered, or a payment Refunded. */
  ghost predicate PaymentTable(orders: map<OrderId, Order>, payments: map<OrderId, Payment>)
  {
    payments.Keys <= orders.Keys
  }

  /** An order is Paid exactly when it has a Paid payment. The services
      keep this; a status edit outside them can break it. */
  ghost predicate PaidInStep(orders: map<OrderId, Order>, payments: map<OrderId, Payment>)
  {
    forall o :: o in orders ==>
      (orders[o].status == OrderStatus.Paid <==> o in payments && payments[o].status == PaymentStatus.Paid)
  }

  class Store {
    var products: map<ProductId, Product>
    var carts: map<CartId, Cart>
    var cartItems: seq<CartItem>
    var orders: map<OrderId, Order>
    /** The items of each order (`order.items`). */
    var orderItems: map<OrderId, seq<OrderItem>>
    /** The payment of each order that has one: the one-to-one field makes
        the order the payment's key. */
    var payments: map<OrderId, Payment>
    /** The address book; the services only read it. */
    var addresses: map<AddressId, Address>
    /** The primary keys the database assigns to the next rows. */
    var nextCartId: CartId
    var nextItemId: ItemId
    var nextOrderId: OrderId

    ghost predicate Valid()
      reads this
    {
      && Priced(products)
      && CartTables(carts, cartItems, products.Keys, nextCartId, nextItemId)
      && OrderTables(orders, orderItems, products.Keys, nextOrderId)
      && PaymentTable(orders, payments)
    }

    /** A store holding a catalog and an address book, and nothing else yet. */
    constructor (catalog: map<ProductId, Product>, addressBook: map<AddressId, Address>)
      requires forall p :: p in catalog ==> catalog[p].price >= MinPrice
      ensures Valid() && SingleActiveCarts(carts)
      ensures products == catalog && addresses == addressBook
      ensures carts == map[] && cartItems == [] && orders == map[] && orderItems == map[]
      ensures payments == map[]
    {
      products, addresses := catalog, addressBook;
      carts, cartItems := map[], [];
      orders, orderItems, payments := map[], map[], map[];
      nextCartId, nextItemId, nextOrderId := 1, 1, 1;
    }

    /** `Order.recalc_total`: sums the subtotals of the order's items and
        returns the sum; with `save` the sum also becomes the order's stored
        total, without it the store is left as it was. */
    method RecalcTotal(order: OrderId, save: bool) returns (total: Cents)
      requires Valid() && order in orders
      modifies this`orders
      ensures Valid()
      ensures PaidInStep(old(orders), payments) ==> PaidInStep(orders, payments)
      ensures total == LinesTotal(orderItems[order])
      ensures orders == if save then old(orders)[order := old(orders)[order].(total := total)]
                        else old(orders)
    {
      var items := orderItems[order];
      total := 0;
      var i := 0;
      while i < |items|
        invariant 0 <= i <= |items|
        invariant total == LinesTotal(items[..i])
      {
        assert items[..i + 1][..i] == items[..i];
        total := total + Subtotal(items[i]);
        i := i + 1;
      }
      assert items[..i] == items;
      if save {
        orders := orders[order := orders[order].(total := total)];
      }
    }
  }
}
