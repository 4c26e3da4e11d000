/** The checkout engine: turns the user's Active cart into a Pending order.
    Every check is made before anything is written, so a failed checkout
    changes nothing; a successful one takes each product's stock down by
    exactly the quantity in the cart, which the authoritative stock check
    guarantees never goes below zero. */
module CheckoutService {
  import opened Wrappers
  import opened Models
  import opened Tables
  import opened Database
  import CartService

  /** Why a cart cannot be checked out (the message of InvalidCartError). */
  datatype InvalidCartReason = BadAddress | BadCart | EmptyCart | ProductInactive

  datatype CheckoutError =
    | InvalidCart(reason: InvalidCartReason)
    | OutOfStock(product: string, available: nat)

  /** The authoritative stock check: the position of the first line whose
      quantity exceeds the product's stock, or none when every line fits. */
  method FirstOutOfStock(lines: seq<CartItem>, byId: map<ProductId, Product>) returns (k: Option<nat>)
    requires forall it :: it in lines ==> it.product in byId
    ensures k.Some? ==> k.value < |lines| && byId[lines[k.value].product].stock < lines[k.value].quantity
    ensures k.Some? ==> forall j :: 0 <= j < k.value ==> byId[lines[j].product].stock >= lines[j].quantity
    ensures k.None? ==> forall j :: 0 <= j < |lines| ==> byId[lines[j].product].stock >= lines[j].quantity
  {
    var i := 0;
    while i < |lines|
      invariant 0 <= i <= |lines|
      invariant forall j :: 0 <= j < i ==> byId[lines[j].product].stock >= lines[j].quantity
    {
      assert lines[i] in lines;
      if byId[lines[i].product].stock < lines[i].quantity {
        return Some(i);
      }
      i := i + 1;
    }
    return None;
  }

  /** The order item checkout makes of a cart line: the cart's quantity at
      the product's price of the moment. */
  function Snapshot(it: CartItem, p: Product): (o: OrderItem)
    ensures o.product == it.product && o.quantity == it.quantity && o.unitPrice == Some(p.price)
  {
    OrderItem(it.product, it.quantity, Some(p.price))
  }

  /** The products named by some cart lines. */
  function ProductIds(lines: seq<CartItem>): (r: set<ProductId>)
    ensures forall it :: it in lines ==> it.product in r
    ensures forall p :: p in r ==> exists it :: it in lines && it.product == p
  {
    set it | it in lines :: it.product
  }

  /** Every line's product is in `products` and is stocked for its quantity. */
  ghost predicate Stocked(lines: seq<CartItem>, products: map<ProductId, Product>)
  {
    forall it :: it in lines ==> it.product in products && products[it.product].stock >= it.quantity
  }

  /** From `before` to `after`, the stock of each line's product went down
      by the line's quantity, and nothing else about the products changed. */
  ghost predicate StockTaken(before: map<ProductId, Product>, after: map<ProductId, Product>, lines: seq<CartItem>)
    requires Stocked(lines, before)
  {
    && after.Keys == before.Keys
    && (forall it :: it in lines ==>
          after[it.product] == before[it.product].(stock := before[it.product].stock - it.quantity))
    && (forall p :: p in before && p !in ProductIds(lines) ==> after[p] == before[p])
  }

  /** The order items are the lines priced at `products`' prices, in order. */
  ghost predicate PricedAt(orderLines: seq<OrderItem>, lines: seq<CartItem>, products: map<ProductId, Product>)
  {
    && |orderLines| == |lines|
    && forall k :: 0 <= k < |lines| ==>
         lines[k].product in products && orderLines[k] == Snapshot(lines[k], products[lines[k].product])
  }

  /** The order items of `lines`, each priced at `products`. */
  function Snapshots(lines: seq<CartItem>, products: map<ProductId, Product>): (r: seq<OrderItem>)
    requires forall it :: it in lines ==> it.product in products
    ensures PricedAt(r, lines, products)
  {
    if lines == [] then []
    else
      var n := |lines| - 1;
      assert forall it :: it in lines[..n] ==> it in lines;
      Snapshots(lines[..n], products) + [Snapshot(lines[n], products[lines[n].product])]
  }

  /** The catalog once the lines, in order, have each taken their quantity
      off their product's stock in `before`. */
  ghost function Taken(before: map<ProductId, Product>, lines: seq<CartItem>): (r: map<ProductId, Product>)
    requires Stocked(lines, before)
  {
    if lines == [] then before
    else
      var n, it := |lines| - 1, lines[|lines| - 1];
      assert forall x :: x in lines[..n] ==> x in lines;
      Taken(before, lines[..n])[it.product := before[it.product].(stock := before[it.product].stock - it.quantity)]
  }

  /** One more line extends the snapshots by its own and takes its quantity
      off its product's stock. */
  lemma TakeStep(before: map<ProductId, Product>, lines: seq<CartItem>, i: nat)
    requires Stocked(lines, before) && i < |lines|
    ensures Stocked(lines[..i], before) && Stocked(lines[..i + 1], before)
    ensures Snapshots(lines[..i + 1], before)
         == Snapshots(lines[..i], before) + [Snapshot(lines[i], before[lines[i].product])]
    ensures Taken(before, lines[..i + 1])
         == Taken(before, lines[..i])[lines[i].product := before[lines[i].product].(stock := before[lines[i].product].stock - lines[i].quantity)]
  {
    var next := lines[..i + 1];
    assert forall it :: it in next ==> it in lines;
    assert next[..i] == lines[..i] && next[i] == lines[i];
  }

  /** Taking stock neither adds nor removes products. */
  lemma {:induction false} TakenKeys(before: map<ProductId, Product>, lines: seq<CartItem>)
    requires Stocked(lines, before)
    ensures Taken(before, lines).Keys == before.Keys
  {
    if lines != [] {
      var n := |lines| - 1;
      assert forall x :: x in lines[..n] ==> x in lines;
      TakenKeys(before, lines[..n]);
      assert lines[n] in lines;
    }
  }

  /** A product on no line keeps its row. */
  lemma {:induction false} TakenElsewhere(before: map<ProductId, Product>, lines: seq<CartItem>, p: ProductId)
    requires Stocked(lines, before) && p in before
    requires forall x :: x in lines ==> x.product != p
    ensures p in Taken(before, lines) && Taken(before, lines)[p] == before[p]
  {
    if lines != [] {
      var n := |lines| - 1;
      assert forall x :: x in lines[..n] ==> x in lines;
      TakenElsewhere(before, lines[..n], p);
      assert lines[n] in lines;
    }
  }

  /** The product of a line loses that line's quantity when no other line
      names it. */
  lemma {:induction false} TakenAt(before: map<ProductId, Product>, lines: seq<CartItem>, k: nat)
    requires Stocked(lines, before) && DistinctProducts(lines) && k < |lines|
    ensures var it := lines[k];
            it.product in Taken(before, lines) &&
            Taken(before, lines)[it.product] == before[it.product].(stock := before[it.product].stock - it.quantity)
  {
    var n := |lines| - 1;
    var init := lines[..n];
    assert forall x :: x in init ==> x in lines;
    assert lines[n] in lines;
    if k < n {
      assert DistinctProducts(init);
      assert init[k] == lines[k];
      TakenAt(before, init, k);
    }
  }

  /** When no product is on two lines, taking the lines one after the other
      takes each line's quantity off its own product and touches nothing else. */
  lemma TakenIsStockTaken(before: map<ProductId, Product>, lines: seq<CartItem>)
    requires Stocked(lines, before) && DistinctProducts(lines)
    ensures StockTaken(before, Taken(before, lines), lines)
  {
    TakenKeys(before, lines);
    forall it | it in lines
      ensures Taken(before, lines)[it.product] == before[it.product].(stock := before[it.product].stock - it.quantity)
    {
      var k :| 0 <= k < |lines| && lines[k] == it;
      TakenAt(before, lines, k);
    }
    forall p | p in before && p !in ProductIds(lines) ensures Taken(before, lines)[p] == before[p] {
      TakenElsewhere(before, lines, p);
    }
  }

  /** Taking stock changes no product's price and removes no product. */
  lemma StockTakenKeepsPrices(before: map<ProductId, Product>, after: map<ProductId, Product>, lines: seq<CartItem>)
    requires Stocked(lines, before) && StockTaken(before, after, lines)
    ensures after.Keys == before.Keys
    ensures forall p :: p in after ==> after[p].price == before[p].price && after[p].name == before[p].name
  {
    forall p | p in after ensures after[p].price == before[p].price && after[p].name == before[p].name {
      if p in ProductIds(lines) {
        var it :| it in lines && it.product == p;
      }
    }
  }

  /** Steps 6 and 7 of the checkout: one order item per line at the
      product's price, the stock of each product taken down, the total
      accumulated. */
  method TakeStock(s: Store, lines: seq<CartItem>, byId: map<ProductId, Product>)
    returns (orderLines: seq<OrderItem>, total: Cents)
    requires DistinctProducts(lines) && Stocked(lines, s.products)
    requires forall it :: it in lines ==> it.product in byId && byId[it.product] == s.products[it.product]
    modifies s`products
    ensures s.products == Taken(old(s.products), lines)
    ensures orderLines == Snapshots(lines, old(s.products))
    ensures total == LinesTotal(orderLines)
  {
    ghost var before := s.products;
    total := 0;
    orderLines := [];
    var i := 0;
    while i < |lines|
      invariant 0 <= i <= |lines|
      invariant Stocked(lines[..i], before)
      invariant orderLines == Snapshots(lines[..i], before)
      invariant total == LinesTotal(orderLines)
      invariant s.products == Taken(before, lines[..i])
    {
      var it := lines[i];
      assert it in lines;
      // each product is on one line only, so `byId` still holds its stock
      var p := byId[it.product];
      assert p == before[it.product];
      var line := Snapshot(it, p);
      TakeStep(before, lines, i);
      LinesTotalAppend(orderLines, line);
      orderLines := orderLines + [line];
      total := total + Subtotal(line);
      var stock: nat := p.stock - it.quantity;
      s.products := s.products[it.product := p.(stock := stock)];
      i := i + 1;
    }
    assert lines[..i] == lines;
  }

  /** Position `k` holds the first line that asks for more than its
      product's stock. */
  ghost predicate FirstShortAt(lines: seq<CartItem>, products: map<ProductId, Product>, k: int)
    requires forall it :: it in lines ==> it.product in products
  {
    && 0 <= k < |lines|
    && products[lines[k].product].stock < lines[k].quantity
    && forall j :: 0 <= j < k ==> products[lines[j].product].stock >= lines[j].quantity
  }

  /** The answer of steps 3 and 4 of `checkout_cart` for a cart's lines:
      an inactive product first, then the first line short of stock, in
      cart order; a success exactly when neither is found. */
  ghost predicate LinesVerdict<T>(products: map<ProductId, Product>, lines: seq<CartItem>, r: Result<T, CheckoutError>)
    requires forall it :: it in lines ==> it.product in products
  {
    if exists it :: it in lines && !Available(products, it.product) then
      r == Failure(InvalidCart(ProductInactive))
    else if Stocked(lines, products) then
      r.Success?
    else
      exists k :: FirstShortAt(lines, products, k) &&
        r == Failure(OutOfStock(products[lines[k].product].name, products[lines[k].product].stock))
  }

  /** The answer the checks of `checkout_cart` give, in the order they are
      made: the address, the cart, its having lines, and then the lines. */
  ghost predicate Verdict<T>(products: map<ProductId, Product>, carts: map<CartId, Cart>,
                             cartItems: seq<CartItem>, addresses: map<AddressId, Address>,
                             user: UserId, cartId: CartId, addressId: AddressId,
                             r: Result<T, CheckoutError>)
    requires forall it :: it in cartItems ==> it.product in products
  {
    if addressId !in addresses || addresses[addressId].owner != user then
      r == Failure(InvalidCart(BadAddress))
    else if !IsActiveCartOf(carts, user, cartId) then
      r == Failure(InvalidCart(BadCart))
    else if ItemsOf(cartItems, cartId) == [] then
      r == Failure(InvalidCart(EmptyCart))
    else
      LinesVerdict(products, ItemsOf(cartItems, cartId), r)
  }

  /** Steps 3 and 4 of `checkout_cart`: the active products of the lines
      by id, and the authoritative stock check. */
  method CheckLines(products: map<ProductId, Product>, lines: seq<CartItem>)
    returns (v: Result<map<ProductId, Product>, CheckoutError>)
    requires forall it :: it in lines ==> it.product in products
    ensures LinesVerdict(products, lines, v)
    ensures v.Success? ==> forall it :: it in lines ==> it.product in v.value && v.value[it.product] == products[it.product]
  {
    var productIds := ProductIds(lines);
    var byId := map p | p in productIds && Available(products, p) :: products[p];
    if |byId.Keys| != |productIds| {
      MissingKey(byId.Keys, productIds);
      var q :| q in productIds && q !in byId.Keys;
      var it :| it in lines && it.product == q;
      assert !Available(products, it.product);
      return Failure(InvalidCart(ProductInactive));
    }
    AllKeysPresent(byId.Keys, productIds);
    assert forall it :: it in lines ==> Available(products, it.product);
    var short := FirstOutOfStock(lines, byId);
    if short.Some? {
      var p := byId[lines[short.value].product];
      assert FirstShortAt(lines, products, short.value);
      assert lines[short.value] in lines;
      return Failure(OutOfStock(p.name, p.stock));
    }
    assert Stocked(lines, products) by {
      forall it | it in lines ensures products[it.product].stock >= it.quantity {
        var k :| 0 <= k < |lines| && lines[k] == it;
      }
    }
    return Success(byId);
  }

  /** Steps 1 to 4 of `checkout_cart`, which write nothing. */
  method Validate(s: Store, user: UserId, cartId: CartId, addressId: AddressId)
    returns (v: Result<map<ProductId, Product>, CheckoutError>)
    requires s.Valid()
    ensures Verdict(s.products, s.carts, s.cartItems, s.addresses, user, cartId, addressId, v)
    ensures v.Success? ==>
              && addressId in s.addresses && IsActiveCartOf(s.carts, user, cartId)
              && Stocked(ItemsOf(s.cartItems, cartId), s.products)
              && forall it :: it in ItemsOf(s.cartItems, cartId) ==>
                   it.product in v.value && v.value[it.product] == s.products[it.product]
  {
    // 1) the address
    if addressId !in s.addresses || s.addresses[addressId].owner != user {
      return Failure(InvalidCart(BadAddress));
    }
    // 2) the cart
    if !IsActiveCartOf(s.carts, user, cartId) {
      return Failure(InvalidCart(BadCart));
    }
    var lines := ItemsOf(s.cartItems, cartId);
    if lines == [] {
      return Failure(InvalidCart(EmptyCart));
    }
    // 3) and 4) the products and their stock
    v := CheckLines(s.products, lines);
  }

  /** `checkout_cart`: the cart `cartId` of `user` becomes a Pending order
      shipped to the address `addressId`. */
  method Checkout(s: Store, user: UserId, cartId: CartId, addressId: AddressId)
    returns (r: Result<OrderId, CheckoutError>)
    requires s.Valid()
    modifies s`products, s`carts, s`cartItems, s`orders, s`orderItems, s`nextOrderId
    ensures s.Valid()
    ensures SingleActiveCarts(old(s.carts)) ==> SingleActiveCarts(s.carts)
    ensures PaidInStep(old(s.orders), s.payments) ==> PaidInStep(s.orders, s.payments)
    ensures Verdict(old(s.products), old(s.carts), old(s.cartItems), s.addresses, user, cartId, addressId, r)
    ensures r.Failure? ==> unchanged(s)
    ensures r.Success? ==>
              var lines, order := ItemsOf(old(s.cartItems), cartId), r.value;
              && addressId in s.addresses
              && Stocked(lines, old(s.products))
              && StockTaken(old(s.products), s.products, lines)
              && order !in old(s.orders) && order in s.orderItems
              && s.orderItems == old(s.orderItems)[order := Snapshots(lines, old(s.products))]
              && s.orders == old(s.orders)[order := FromAddress(user, s.addresses[addressId]).(
                   cart := Some(cartId), total := LinesTotal(s.orderItems[order]))]
              && s.carts == old(s.carts)[cartId := old(s.carts)[cartId].(status := Converted)]
              && s.cartItems == WithoutCart(old(s.cartItems), cartId)
              && ItemsOf(s.cartItems, cartId) == []
  {
    var v := Validate(s, user, cartId, addressId);
    if v.Failure? {
      r := Failure(v.error);
      VerdictCarries(s.products, s.carts, s.cartItems, s.addresses, user, cartId, addressId, v, r);
      return;
    }
    var order := PlaceOrder(s, user, cartId, s.addresses[addressId], ItemsOf(s.cartItems, cartId), v.value);
    r := Success(order);
    VerdictCarries(old(s.products), old(s.carts), old(s.cartItems), s.addresses, user, cartId, addressId, v, r);
  }

  /** Two answers that fail alike and succeed alike are both the answer of
      the checks. */
  lemma VerdictCarries<T, U>(products: map<ProductId, Product>, carts: map<CartId, Cart>,
                             cartItems: seq<CartItem>, addresses: map<AddressId, Address>,
                             user: UserId, cartId: CartId, addressId: AddressId,
                             v: Result<T, CheckoutError>, r: Result<U, CheckoutError>)
    requires forall it :: it in cartItems ==> it.product in products
    requires Verdict(products, carts, cartItems, addresses, user, cartId, addressId, v)
    requires v.Success? <==> r.Success?
    requires v.Failure? ==> r == Failure(v.error)
    ensures Verdict(products, carts, cartItems, addresses, user, cartId, addressId, r)
  {
  }

  /** Steps 5 to 8 of `checkout_cart`, once every check has passed. */
  method PlaceOrder(s: Store, user: UserId, cartId: CartId, address: Address,
                    lines: seq<CartItem>, byId: map<ProductId, Product>)
    returns (order: OrderId)
    requires s.Valid() && cartId in s.carts && lines == ItemsOf(s.cartItems, cartId)
    requires Stocked(lines, s.products)
    requires forall it :: it in lines ==> it.product in byId && byId[it.product] == s.products[it.product]
    modifies s`products, s`carts, s`cartItems, s`orders, s`orderItems, s`nextOrderId
    ensures s.Valid()
    ensures SingleActiveCarts(old(s.carts)) ==> SingleActiveCarts(s.carts)
    ensures PaidInStep(old(s.orders), s.payments) ==> PaidInStep(s.orders, s.payments)
    ensures StockTaken(old(s.products), s.products, lines)
    ensures order !in old(s.orders)
    ensures s.orderItems == old(s.orderItems)[order := Snapshots(lines, old(s.products))]
    ensures s.orders == old(s.orders)[order := FromAddress(user, address).(
              cart := Some(cartId), total := LinesTotal(Snapshots(lines, old(s.products))))]
    ensures s.carts == old(s.carts)[cartId := old(s.carts)[cartId].(status := Converted)]
    ensures s.cartItems == WithoutCart(old(s.cartItems), cartId)
    ensures ItemsOf(s.cartItems, cartId) == []
  {
    ItemsOfDistinctProducts(s.cartItems, cartId);
    // 6) the order items and the stock; steps 5 to 7 write in one
    // transaction, so the order of their writes is not observable
    var orderLines, total := DecrementStock(s, lines, byId);
    // 5) the order, with the address snapshot, and 7) its total
    order := CreateOrder(s, user, cartId, address, orderLines, total);
    // 8) the cart is converted and emptied
    ConvertCart(s, cartId);
  }

  /** Step 6 on a consistent store. */
  method DecrementStock(s: Store, lines: seq<CartItem>, byId: map<ProductId, Product>)
    returns (orderLines: seq<OrderItem>, total: Cents)
    requires s.Valid() && DistinctProducts(lines) && Stocked(lines, s.products)
    requires forall it :: it in lines ==> it in s.cartItems
    requires forall it :: it in lines ==> it.product in byId && byId[it.product] == s.products[it.product]
    modifies s`products
    ensures s.Valid()
    ensures StockTaken(old(s.products), s.products, lines)
    ensures orderLines == Snapshots(lines, old(s.products))
    ensures OrderItemsConstraints(orderLines)
    ensures total == LinesTotal(orderLines)
  {
    SnapshotsConstraints(lines, s.products);
    orderLines, total := TakeStock(s, lines, byId);
    TakenIsStockTaken(old(s.products), lines);
    StockTakenKeepsPrices(old(s.products), s.products, lines);
  }

  /** Order items made of cart lines of one cart meet the order-item
      constraints when the prices they are taken at do. */
  lemma SnapshotsConstraints(lines: seq<CartItem>, products: map<ProductId, Product>)
    requires forall it :: it in lines ==> it.product in products && it.quantity >= 1
    requires forall it :: it in lines ==> products[it.product].price >= MinPrice
    requires DistinctProducts(lines)
    ensures OrderItemsConstraints(Snapshots(lines, products))
  {
    var o := Snapshots(lines, products);
    forall x | x in o ensures x.quantity >= 1 && x.unitPrice.Some? && x.unitPrice.value >= MinPrice {
      var k :| 0 <= k < |o| && o[k] == x;
      assert lines[k] in lines;
    }
  }

  /** Steps 5 and 7: a new Pending order with the address snapshot, its
      items and their total. */
  method CreateOrder(s: Store, user: UserId, cartId: CartId, address: Address,
                     orderLines: seq<OrderItem>, total: Cents)
    returns (order: OrderId)
    requires s.Valid() && OrderItemsConstraints(orderLines)
    requires forall o :: o in orderLines ==> o.product in s.products
    modifies s`orders, s`orderItems, s`nextOrderId
    ensures s.Valid()
    ensures PaidInStep(old(s.orders), s.payments) ==> PaidInStep(s.orders, s.payments)
    ensures order !in old(s.orders)
    ensures s.orderItems == old(s.orderItems)[order := orderLines]
    ensures s.orders == old(s.orders)[order := FromAddress(user, address).(cart := Some(cartId), total := total)]
  {
    order := s.nextOrderId;
    s.nextOrderId := s.nextOrderId + 1;
    s.orders := s.orders[order := FromAddress(user, address).(status := OrderStatus.Pending, cart := Some(cartId))];
    s.orderItems := s.orderItems[order := orderLines];
    s.orders := s.orders[order := s.orders[order].(total := total)];
  }

  /** Step 8: the cart is Converted and its lines are deleted. */
  method ConvertCart(s: Store, cartId: CartId)
    requires s.Valid() && cartId in s.carts
    modifies s`carts, s`cartItems
    ensures s.Valid()
    ensures SingleActiveCarts(old(s.carts)) ==> SingleActiveCarts(s.carts)
    ensures s.carts == old(s.carts)[cartId := old(s.carts)[cartId].(status := Converted)]
    ensures s.cartItems == WithoutCart(old(s.cartItems), cartId)
    ensures ItemsOf(s.cartItems, cartId) == []
  {
    if SingleActiveCarts(s.carts) {
      SingleActiveCartsRetire(s.carts, cartId, Converted);
    }
    var carts := s.carts[cartId := s.carts[cartId].(status := Converted)];
    var rest := WithoutCart(s.cartItems, cartId);
    CartTablesWithoutCart(s.carts, s.cartItems, s.products.Keys, s.nextCartId, s.nextItemId, cartId, Converted);
    NoneLeft(rest, cartId);
    s.carts, s.cartItems := carts, rest;
  }

  /** A sequence with no row of the cart has no lines of it. */
  lemma {:induction false} NoneLeft(items: seq<CartItem>, cart: CartId)
    requires forall it :: it in items ==> it.cart != cart
    ensures ItemsOf(items, cart) == []
  {
    if items != [] {
      assert items[0] in items;
      NoneLeft(items[1..], cart);
    }
  }

  /** The total that `cart_summary` shows for a cart is the total of the
      order that checkout makes of it while the prices stay the same. */
  lemma {:induction false} SummaryTotalIsOrderTotal(shown: seq<CartService.SummaryLine>, lines: seq<CartItem>,
                                                   products: map<ProductId, Product>)
    requires |shown| == |lines|
    requires forall k :: 0 <= k < |shown| ==> CartService.ShowsItem(shown[k], lines[k], products)
    ensures forall it :: it in lines ==> it.product in products
    ensures CartService.SummaryTotal(shown) == LinesTotal(Snapshots(lines, products))
  {
    assert forall it :: it in lines ==> it.product in products by {
      forall it | it in lines ensures it.product in products {
        var k :| 0 <= k < |lines| && lines[k] == it;
        assert CartService.ShowsItem(shown[k], lines[k], products);
      }
    }
    if lines != [] {
      var n := |lines| - 1;
      assert forall it :: it in lines[..n] ==> it in lines;
      assert forall k :: 0 <= k < n ==> shown[..n][k] == shown[k] && lines[..n][k] == lines[k];
      SummaryTotalIsOrderTotal(shown[..n], lines[..n], products);
      var init := Snapshots(lines[..n], products);
      var last := Snapshot(lines[n], products[lines[n].product]);
      assert Snapshots(lines, products) == init + [last];
      LinesTotalAppend(init, last);
      assert CartService.ShowsItem(shown[n], lines[n], products);
    }
  }

  /** A subset smaller than its superset misses one of its elements. */
  lemma MissingKey<T>(a: set<T>, b: set<T>)
    requires a <= b && |a| != |b|
    ensures exists x :: x in b && x !in a
  {
    assert b == a + (b - a);
    assert a * (b - a) == {};
    var x :| x in b - a;
  }

  /** A subset as large as its superset is the whole set. */
  lemma AllKeysPresent<T>(a: set<T>, b: set<T>)
    requires a <= b && |a| == |b|
    ensures a == b
  {
    assert b == a + (b - a);
    assert a * (b - a) == {};
  }
}
