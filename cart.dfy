/** The cart engine: the user's Active cart and the quantities in it. Each
    operation is one transaction, so an operation that fails leaves the store
    as it found it. The stock checks here are advisory; the authoritative one
    is made at checkout. No operation here touches products, orders or
    payments: they are outside every frame of this module. */
module CartService {
  import opened Wrappers
  import opened Models
  import opened Tables
  import opened Database

  /** The exceptions of the cart engine and of the lookups it relies on. */
  datatype CartError =
    | InvalidQuantity                            // InvalidQuantityError
    | ProductUnavailable(available: Option<nat>) // ProductUnavailableError; the stock when a stock check failed
    | NoActiveCart                               // Cart.DoesNotExist
    | SeveralActiveCarts                         // Cart.MultipleObjectsReturned
    | ItemNotFound                               // Http404 from get_object_or_404
    | Unavailable                                // ValueError: inactive product
    | InsufficientStock(inStock: nat)            // ValueError: quantity above stock

  /** What get-or-create does to the cart table: `c` is an Active cart of
      `user`, one the user already had when there was one, and otherwise a
      new row, the only change. */
  ghost predicate GotActiveCart(before: map<CartId, Cart>, after: map<CartId, Cart>, user: UserId, c: CartId)
  {
    && IsActiveCartOf(after, user, c)
    && if HasActiveCart(before, user) then after == before
       else c !in before && after == before[c := NewCart(user)]
  }

  /** The cart-item table now records `quantity` units (0: no item) for
      (cart, product), and what it records for every other pair is as before. */
  ghost predicate QuantityBecomes(before: seq<CartItem>, after: seq<CartItem>,
                                  cart: CartId, product: ProductId, quantity: nat)
  {
    && QuantityInCart(after, cart, product) == quantity
    && forall c, p :: !(c == cart && p == product) ==>
         QuantityInCart(after, c, p) == QuantityInCart(before, c, p)
  }

  /** The rows behind `QuantityBecomes`: with no row for (cart, product), a
      new row with the next primary key (none for 0); with one, that row's
      quantity updated in place, or the row deleted for 0. Every other row
      keeps its place, its key and its quantity. */
  ghost predicate RowsBecome(before: seq<CartItem>, after: seq<CartItem>, nextBefore: ItemId, nextAfter: ItemId,
                             cart: CartId, product: ProductId, quantity: nat)
  {
    match FindByKey(before, cart, product)
    case None =>
      if quantity == 0 then after == before && nextAfter == nextBefore
      else after == before + [CartItem(nextBefore, cart, product, quantity)] && nextAfter == nextBefore + 1
    case Some(i) =>
      && nextAfter == nextBefore
      && if quantity == 0 then after == DeleteAt(before, i) else after == SetQuantityAt(before, i, quantity)
  }

  /** `get_or_create_active_cart`: one of the user's Active carts, or a new
      one when the user has none. */
  method GetOrCreateActiveCart(s: Store, user: UserId) returns (cart: CartId)
    requires s.Valid()
    modifies s`carts, s`nextCartId
    ensures s.Valid()
    ensures GotActiveCart(old(s.carts), s.carts, user, cart)
    ensures HasActiveCart(old(s.carts), user) ==> s.nextCartId == old(s.nextCartId)
    ensures SingleActiveCarts(old(s.carts)) ==> SingleActiveCarts(s.carts)
  {
    if c :| c in s.carts && IsActiveCartOf(s.carts, user, c) {
      cart := c;
    } else {
      cart := s.nextCartId;
      if SingleActiveCarts(s.carts) {
        SingleActiveCartsAdd(s.carts, user, cart);
      }
      s.carts := s.carts[cart := NewCart(user)];
      s.nextCartId := s.nextCartId + 1;
    }
  }

  // The three row operations the services issue on the cart-item table.

  /** `CartItem.objects.create`: a new row with the next primary key. */
  method CreateItem(s: Store, cart: CartId, product: ProductId, quantity: nat)
    requires s.Valid() && cart in s.carts && product in s.products && quantity >= 1
    requires QuantityInCart(s.cartItems, cart, product) == 0
    modifies s`cartItems, s`nextItemId
    ensures s.Valid()
    ensures s.cartItems == old(s.cartItems) + [CartItem(old(s.nextItemId), cart, product, quantity)]
    ensures s.nextItemId == old(s.nextItemId) + 1
    ensures QuantityBecomes(old(s.cartItems), s.cartItems, cart, product, quantity)
  {
    var items := s.cartItems;
    var x := CartItem(s.nextItemId, cart, product, quantity);
    assert FindByKey(items, cart, product).None? by {
      if FindByKey(items, cart, product).Some? {
        assert items[FindByKey(items, cart, product).value] in items;
      }
    }
    ConstraintsAfterAppend(items, x);
    AscendingAfterAppend(items, x);
    forall c, p ensures QuantityInCart(items + [x], c, p) ==
                        if HasKey(x, c, p) then x.quantity else QuantityInCart(items, c, p) {
      QuantityAfterAppend(items, x, c, p);
    }
    s.cartItems := items + [x];
    s.nextItemId := s.nextItemId + 1;
  }

  /** An update of the quantity of the row at position `i`. */
  method UpdateItem(s: Store, i: nat, quantity: nat)
    requires s.Valid() && i < |s.cartItems| && quantity >= 1
    modifies s`cartItems
    ensures s.Valid()
    ensures s.cartItems == SetQuantityAt(old(s.cartItems), i, quantity)
    ensures QuantityBecomes(old(s.cartItems), s.cartItems, old(s.cartItems)[i].cart, old(s.cartItems)[i].product, quantity)
  {
    var items := s.cartItems;
    ConstraintsAfterSet(items, i, quantity);
    AscendingAfterSet(items, i, quantity);
    forall c, p ensures QuantityInCart(SetQuantityAt(items, i, quantity), c, p) ==
                        if HasKey(items[i], c, p) then quantity else QuantityInCart(items, c, p) {
      QuantityAfterSet(items, i, quantity, c, p);
    }
    assert forall it :: it in SetQuantityAt(items, i, quantity) ==> it == items[i].(quantity := quantity) || it in items;
    s.cartItems := SetQuantityAt(items, i, quantity);
  }

  /** `item.delete()` on the row at position `i`. */
  method DeleteItem(s: Store, i: nat)
    requires s.Valid() && i < |s.cartItems|
    modifies s`cartItems
    ensures s.Valid()
    ensures s.cartItems == DeleteAt(old(s.cartItems), i)
    ensures QuantityBecomes(old(s.cartItems), s.cartItems, old(s.cartItems)[i].cart, old(s.cartItems)[i].product, 0)
  {
    var items := s.cartItems;
    ConstraintsAfterDelete(items, i);
    AscendingAfterDelete(items, i);
    forall c, p ensures QuantityInCart(DeleteAt(items, i), c, p) ==
                        if HasKey(items[i], c, p) then 0 else QuantityInCart(items, c, p) {
      QuantityAfterDelete(items, i, c, p);
    }
    assert forall it :: it in DeleteAt(items, i) ==> it in items;
    s.cartItems := DeleteAt(items, i);
  }

  /** `add_to_cart`: puts `quantity` more units of the product in the user's
      Active cart, creating the item or adding to it. */
  method AddToCart(s: Store, user: UserId, productId: ProductId, quantity: int)
    returns (r: Result<CartId, CartError>)
    requires s.Valid()
    modifies s`carts, s`nextCartId, s`cartItems, s`nextItemId
    ensures s.Valid()
    ensures SingleActiveCarts(old(s.carts)) ==> SingleActiveCarts(s.carts)
    ensures r.Failure? ==> unchanged(s)
    ensures quantity <= 0 ==> r == Failure(InvalidQuantity)
    ensures quantity > 0 && !Available(s.products, productId) ==> r == Failure(ProductUnavailable(None))
    ensures quantity > 0 && Available(s.products, productId) && s.products[productId].stock < quantity ==>
              r == Failure(ProductUnavailable(Some(s.products[productId].stock)))
    ensures r.Failure? && quantity > 0 && Available(s.products, productId) && quantity <= s.products[productId].stock ==>
              && r == Failure(ProductUnavailable(Some(s.products[productId].stock)))
              && exists c :: IsActiveCartOf(s.carts, user, c) &&
                   QuantityInCart(s.cartItems, c, productId) + quantity > s.products[productId].stock
    ensures r.Success? ==> GotActiveCart(old(s.carts), s.carts, user, r.value)
    ensures r.Success? ==>
              && QuantityBecomes(old(s.cartItems), s.cartItems, r.value, productId,
                                 QuantityInCart(old(s.cartItems), r.value, productId) + quantity)
              && RowsBecome(old(s.cartItems), s.cartItems, old(s.nextItemId), s.nextItemId, r.value, productId,
                            QuantityInCart(old(s.cartItems), r.value, productId) + quantity)
              && QuantityInCart(s.cartItems, r.value, productId) <= s.products[productId].stock
  {
    if quantity <= 0 {
      return Failure(InvalidQuantity);
    }
    if !Available(s.products, productId) {
      return Failure(ProductUnavailable(None));
    }
    var product := s.products[productId];
    if product.stock < quantity {
      return Failure(ProductUnavailable(Some(product.stock)));
    }
    var cart := GetOrCreateActiveCart(s, user);
    ghost var held := QuantityInCart(s.cartItems, cart, productId);
    match FindByKey(s.cartItems, cart, productId) {
      case None =>
        assert held == 0;
        CreateItem(s, cart, productId, quantity);
      case Some(i) =>
        // the item's cart was in the table before, so get-or-create created nothing
        assert s.cartItems[i] in s.cartItems;
        var newQuantity := s.cartItems[i].quantity + quantity;
        assert newQuantity == held + quantity;
        if product.stock < newQuantity {
          assert IsActiveCartOf(s.carts, user, cart);
          return Failure(ProductUnavailable(Some(product.stock)));
        }
        UpdateItem(s, i, newQuantity);
    }
    assert QuantityInCart(s.cartItems, cart, productId) == held + quantity <= product.stock;
    r := Success(cart);
  }

  /** `set_item_quantity`: makes the quantity of the product in the user's
      Active cart exactly `quantity`; 0 removes the item, and does nothing
      when there is none. */
  method SetItemQuantity(s: Store, user: UserId, productId: ProductId, quantity: int)
    returns (r: Result<CartId, CartError>)
    requires s.Valid()
    modifies s`carts, s`nextCartId, s`cartItems, s`nextItemId
    ensures s.Valid()
    ensures SingleActiveCarts(old(s.carts)) ==> SingleActiveCarts(s.carts)
    ensures r.Failure? ==> unchanged(s)
    ensures quantity < 0 ==> r == Failure(InvalidQuantity)
    ensures quantity >= 0 && !Available(s.products, productId) ==> r == Failure(ProductUnavailable(None))
    ensures quantity >= 0 && Available(s.products, productId) ==>
              (r.Failure? <==> s.products[productId].stock < quantity)
    ensures r.Failure? && quantity >= 0 && Available(s.products, productId) ==>
              r == Failure(ProductUnavailable(Some(s.products[productId].stock)))
    ensures r.Success? ==> GotActiveCart(old(s.carts), s.carts, user, r.value)
    ensures r.Success? ==> QuantityBecomes(old(s.cartItems), s.cartItems, r.value, productId, quantity)
    ensures r.Success? ==>
              RowsBecome(old(s.cartItems), s.cartItems, old(s.nextItemId), s.nextItemId, r.value, productId, quantity)
    ensures r.Success? && quantity == QuantityInCart(old(s.cartItems), r.value, productId) ==>
              s.cartItems == old(s.cartItems)
    ensures r.Success? && quantity == 0 && QuantityInCart(old(s.cartItems), r.value, productId) == 0 ==>
              s.cartItems == old(s.cartItems)
  {
    if quantity < 0 {
      return Failure(InvalidQuantity);
    }
    if !Available(s.products, productId) {
      return Failure(ProductUnavailable(None));
    }
    var product := s.products[productId];
    // what the transaction restores if it raises
    var savedCarts, savedNextCartId := s.carts, s.nextCartId;
    var cart := GetOrCreateActiveCart(s, user);
    match FindByKey(s.cartItems, cart, productId) {
      case None =>
        if quantity == 0 {
          return Success(cart);
        }
        if product.stock < quantity {
          s.carts, s.nextCartId := savedCarts, savedNextCartId;
          return Failure(ProductUnavailable(Some(product.stock)));
        }
        CreateItem(s, cart, productId, quantity);
      case Some(i) =>
        assert s.cartItems[i] in s.cartItems;
        if quantity == 0 {
          DeleteItem(s, i);
          return Success(cart);
        }
        if product.stock < quantity {
          s.carts, s.nextCartId := savedCarts, savedNextCartId;
          return Failure(ProductUnavailable(Some(product.stock)));
        }
        QuantityInCartAt(s.cartItems, i);
        SetQuantityAtSame(s.cartItems, i);
        UpdateItem(s, i, quantity);
    }
    r := Success(cart);
  }

  /** `remove_from_cart`: the user's Active cart no longer holds the product;
      nothing else in the cart-item table changes. */
  method RemoveFromCart(s: Store, user: UserId, productId: ProductId) returns (cart: CartId)
    requires s.Valid()
    modifies s`carts, s`nextCartId, s`cartItems
    ensures s.Valid()
    ensures SingleActiveCarts(old(s.carts)) ==> SingleActiveCarts(s.carts)
    ensures GotActiveCart(old(s.carts), s.carts, user, cart)
    ensures QuantityBecomes(old(s.cartItems), s.cartItems, cart, productId, 0)
    ensures RowsBecome(old(s.cartItems), s.cartItems, s.nextItemId, s.nextItemId, cart, productId, 0)
    ensures forall it :: it in old(s.cartItems) && !HasKey(it, cart, productId) ==> it in s.cartItems
    ensures QuantityInCart(old(s.cartItems), cart, productId) == 0 ==> s.cartItems == old(s.cartItems)
  {
    cart := GetOrCreateActiveCart(s, user);
    match FindByKey(s.cartItems, cart, productId) {
      case None =>
      case Some(i) =>
        DeleteAtKeeps(s.cartItems, i);
        DeleteItem(s, i);
    }
  }

  /** `remove_cart_item`: deletes the item `itemId` when it belongs to the
      user's Active cart. */
  method RemoveCartItem(s: Store, user: UserId, itemId: ItemId) returns (r: Result<(), CartError>)
    requires s.Valid()
    modifies s`cartItems
    ensures s.Valid()
    ensures r.Failure? ==> unchanged(s)
    ensures |ActiveCartsOf(s.carts, user)| == 0 ==> r == Failure(NoActiveCart)
    ensures |ActiveCartsOf(s.carts, user)| > 1 ==> r == Failure(SeveralActiveCarts)
    ensures |ActiveCartsOf(s.carts, user)| == 1 ==>
              var found := FindById(old(s.cartItems), itemId);
              if found.Some? && IsActiveCartOf(s.carts, user, old(s.cartItems)[found.value].cart) then
                var it := old(s.cartItems)[found.value];
                && r.Success? && s.cartItems == DeleteAt(old(s.cartItems), found.value)
                && QuantityBecomes(old(s.cartItems), s.cartItems, it.cart, it.product, 0)
              else r == Failure(ItemNotFound)
  {
    var active := ActiveCartsOf(s.carts, user);
    if |active| == 0 {
      return Failure(NoActiveCart);
    }
    if |active| > 1 {
      return Failure(SeveralActiveCarts);
    }
    var cart :| cart in active;
    assert |active - {cart}| == 0;
    assert active == {cart};
    match FindById(s.cartItems, itemId) {
      case None =>
        return Failure(ItemNotFound);
      case Some(i) =>
        if s.cartItems[i].cart != cart {
          return Failure(ItemNotFound);
        }
        DeleteItem(s, i);
        r := Success(());
    }
  }

  /** `update_cart_item_quantity`: sets the quantity of the item `itemId` of
      the user's Active cart, or deletes it when `quantity` is not positive;
      returns the updated item, or none after a deletion. */
  method UpdateCartItemQuantity(s: Store, user: UserId, itemId: ItemId, quantity: int)
    returns (r: Result<Option<CartItem>, CartError>)
    requires s.Valid()
    modifies s`cartItems
    ensures s.Valid()
    ensures r.Failure? ==> unchanged(s)
    ensures var found := FindById(old(s.cartItems), itemId);
            if found.None? || !IsActiveCartOf(s.carts, user, old(s.cartItems)[found.value].cart) then
              r == Failure(ItemNotFound)
            else
              var it := old(s.cartItems)[found.value];
              && it.product in s.products
              && var product := s.products[it.product];
              && (quantity <= 0 ==> r == Success(None) && s.cartItems == DeleteAt(old(s.cartItems), found.value))
              && (quantity > 0 && !product.isActive ==> r == Failure(Unavailable))
              && (quantity > 0 && product.isActive && quantity > product.stock ==>
                    r == Failure(InsufficientStock(product.stock)))
              && (quantity > 0 && product.isActive && quantity <= product.stock ==>
                    r == Success(Some(it.(quantity := quantity))) &&
                    s.cartItems == SetQuantityAt(old(s.cartItems), found.value, quantity))
              && (r.Success? ==>
                    QuantityBecomes(old(s.cartItems), s.cartItems, it.cart, it.product,
                                    if quantity <= 0 then 0 else quantity))
  {
    match FindById(s.cartItems, itemId) {
      case None =>
        return Failure(ItemNotFound);
      case Some(i) =>
        var item := s.cartItems[i];
        assert item in s.cartItems;
        if !IsActiveCartOf(s.carts, user, item.cart) {
          return Failure(ItemNotFound);
        }
        if quantity <= 0 {
          DeleteItem(s, i);
          return Success(None);
        }
        var product := s.products[item.product];
        if !product.isActive {
          return Failure(Unavailable);
        }
        if quantity > product.stock {
          return Failure(InsufficientStock(product.stock));
        }
        UpdateItem(s, i, quantity);
        r := Success(Some(s.cartItems[i]));
    }
  }

  /** One line of a cart summary (the image, slug and category are left out). */
  datatype SummaryLine = SummaryLine(itemId: ItemId, productId: ProductId, name: string,
                                     unitPrice: Cents, quantity: nat, subtotal: Cents)

  datatype Summary = Summary(cartId: CartId, lines: seq<SummaryLine>, total: Cents)

  /** The sum of the lines' subtotals. */
  function SummaryTotal(lines: seq<SummaryLine>): (r: Cents)
  {
    if lines == [] then 0 else SummaryTotal(lines[..|lines| - 1]) + lines[|lines| - 1].subtotal
  }

  /** `line` shows the item `it` of a product priced and named as in `products`. */
  ghost predicate ShowsItem(line: SummaryLine, it: CartItem, products: map<ProductId, Product>)
  {
    && line.itemId == it.id && line.productId == it.product && line.quantity == it.quantity
    && it.product in products
    && line.name == products[it.product].name
    && line.unitPrice == products[it.product].price
    && line.subtotal == line.unitPrice * line.quantity
  }

  /** `cart_summary`: one line per item of the cart, in table order, each
      priced at the product's current price, and the total of the lines. It
      only reads the store. */
  method CartSummary(s: Store, cart: CartId) returns (summary: Summary)
    requires s.Valid()
    ensures summary.cartId == cart
    ensures |summary.lines| == |ItemsOf(s.cartItems, cart)|
    ensures forall k :: 0 <= k < |summary.lines| ==>
              ShowsItem(summary.lines[k], ItemsOf(s.cartItems, cart)[k], s.products)
    ensures summary.total == SummaryTotal(summary.lines)
  {
    var items := ItemsOf(s.cartItems, cart);
    var total := 0;
    var lines: seq<SummaryLine> := [];
    var i := 0;
    while i < |items|
      invariant 0 <= i <= |items|
      invariant |lines| == i
      invariant forall k :: 0 <= k < i ==> ShowsItem(lines[k], items[k], s.products)
      invariant total == SummaryTotal(lines)
    {
      var it := items[i];
      assert it in items;
      var product := s.products[it.product];
      var subtotal := product.price * it.quantity;
      total := total + subtotal;
      var line := SummaryLine(it.id, it.product, product.name, product.price, it.quantity, subtotal);
      assert (lines + [line])[..i] == lines;
      lines := lines + [line];
      i := i + 1;
    }
    summary := Summary(cart, lines, total);
  }
}
