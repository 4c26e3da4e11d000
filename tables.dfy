/** Queries and updates on the cart-item table, which is held as a sequence
    of rows in primary-key order, and what each update does to the quantity
    the table records for every (cart, product) pair. */
module Tables {
  import opened Wrappers
  import opened Models

  /** The position of the item for (cart, product), the row
      `CartItem.objects.filter(cart=cart, product=product).first()` finds. */
  function FindByKey(items: seq<CartItem>, cart: CartId, product: ProductId): (r: Option<nat>)
    ensures r.Some? ==> r.value < |items| && HasKey(items[r.value], cart, product)
    ensures r.None? ==> forall it :: it in items ==> !HasKey(it, cart, product)
  {
    if items == [] then None
    else if HasKey(items[0], cart, product) then Some(0)
    else match FindByKey(items[1..], cart, product)
      case None => None
      case Some(k) => Some(k + 1)
  }

  /** The position of the item whose primary key is `id`. */
  function FindById(items: seq<CartItem>, id: ItemId): (r: Option<nat>)
    ensures r.Some? ==> r.value < |items| && items[r.value].id == id
    ensures r.None? ==> forall it :: it in items ==> it.id != id
  {
    if items == [] then None
    else if items[0].id == id then Some(0)
    else match FindById(items[1..], id)
      case None => None
      case Some(k) => Some(k + 1)
  }

  /** How many units of `product` the table holds for `cart`: the quantity
      of its item, or 0 when there is none. */
  function QuantityInCart(items: seq<CartItem>, cart: CartId, product: ProductId): (n: nat)
  {
    match FindByKey(items, cart, product)
    case None => 0
    case Some(i) => items[i].quantity
  }

  /** The items of one cart, in table order (`cart.items.all()`). */
  function ItemsOf(items: seq<CartItem>, cart: CartId): (r: seq<CartItem>)
    ensures forall it :: it in r <==> it in items && it.cart == cart
  {
    if items == [] then []
    else (if items[0].cart == cart then [items[0]] else []) + ItemsOf(items[1..], cart)
  }

  /** The table without the row at position `i`. */
  function DeleteAt(items: seq<CartItem>, i: nat): (r: seq<CartItem>)
    requires i < |items|
    ensures |r| == |items| - 1
    ensures forall j :: 0 <= j < i ==> r[j] == items[j]
    ensures forall j :: i <= j < |r| ==> r[j] == items[j + 1]
  {
    items[..i] + items[i + 1..]
  }

  /** The table without any row of `cart` (`cart.items.all().delete()`). */
  function WithoutCart(items: seq<CartItem>, cart: CartId): (r: seq<CartItem>)
    ensures forall it :: it in r <==> it in items && it.cart != cart
  {
    if items == [] then []
    else (if items[0].cart != cart then [items[0]] else []) + WithoutCart(items[1..], cart)
  }

  /** The table with the quantity of the row at position `i` replaced. */
  function SetQuantityAt(items: seq<CartItem>, i: nat, quantity: nat): (r: seq<CartItem>)
    requires i < |items|
    ensures |r| == |items| && r[i].quantity == quantity
    ensures r[i].id == items[i].id && HasKey(r[i], items[i].cart, items[i].product)
    ensures forall j :: 0 <= j < |items| && j != i ==> r[j] == items[j]
  {
    items[i := items[i].(quantity := quantity)]
  }

  /** Writing back a row's own quantity leaves the table as it was. */
  lemma SetQuantityAtSame(items: seq<CartItem>, i: nat)
    requires i < |items|
    ensures SetQuantityAt(items, i, items[i].quantity) == items
  {
  }

  /** Deleting one row keeps every other row. */
  lemma DeleteAtKeeps(items: seq<CartItem>, i: nat)
    requires i < |items|
    ensures forall j :: 0 <= j < |items| && j != i ==> items[j] in DeleteAt(items, i)
  {
    var r := DeleteAt(items, i);
    forall j | 0 <= j < |items| && j != i ensures items[j] in r {
      if j < i { assert r[j] == items[j]; } else { assert r[j - 1] == items[j]; }
    }
  }

  /** No two items of a cart's list are for the same product. */
  ghost predicate DistinctProducts(lines: seq<CartItem>)
  {
    forall i, j :: 0 <= i < j < |lines| ==> lines[i].product != lines[j].product
  }

  /** With unique keys, the search for an item's key finds that very item. */
  lemma FindByKeyUnique(items: seq<CartItem>, i: nat)
    requires UniqueKeys(items) && i < |items|
    ensures FindByKey(items, items[i].cart, items[i].product) == Some(i)
  {
    assert items[i] in items;
    var j := FindByKey(items, items[i].cart, items[i].product).value;
    assert HasKey(items[j], items[i].cart, items[i].product);
  }

  /** With unique keys, the recorded quantity is the quantity of the item
      with that key, and 0 when no item has it. */
  lemma QuantityInCartAt(items: seq<CartItem>, i: nat)
    requires UniqueKeys(items) && i < |items|
    ensures QuantityInCart(items, items[i].cart, items[i].product) == items[i].quantity
  {
    FindByKeyUnique(items, i);
  }

  /** Appending an item with a key not yet present records its quantity for
      its key and changes no other key's quantity. */
  lemma {:induction false} QuantityAfterAppend(items: seq<CartItem>, x: CartItem, cart: CartId, product: ProductId)
    requires UniqueKeys(items) && FindByKey(items, x.cart, x.product).None?
    ensures UniqueKeys(items + [x])
    ensures QuantityInCart(items + [x], cart, product) ==
              if HasKey(x, cart, product) then x.quantity else QuantityInCart(items, cart, product)
  {
    var n := items + [x];
    forall i, j | 0 <= i < j < |n| ensures !HasKey(n[j], n[i].cart, n[i].product) {
      if j == |items| {
        assert n[i] in items;
      }
    }
    if HasKey(x, cart, product) {
      QuantityInCartAt(n, |items|);
    } else {
      match FindByKey(items, cart, product)
      case None =>
        forall k | 0 <= k < |n| ensures !HasKey(n[k], cart, product) {
          if k < |items| { assert n[k] in items; }
        }
      case Some(k) =>
        assert n[k] == items[k];
        QuantityInCartAt(n, k);
    }
  }

  /** Replacing the quantity of one item records the new quantity for its key
      and changes no other key's quantity. */
  lemma QuantityAfterSet(items: seq<CartItem>, i: nat, quantity: nat, cart: CartId, product: ProductId)
    requires UniqueKeys(items) && i < |items|
    ensures UniqueKeys(SetQuantityAt(items, i, quantity))
    ensures QuantityInCart(SetQuantityAt(items, i, quantity), cart, product) ==
              if HasKey(items[i], cart, product) then quantity else QuantityInCart(items, cart, product)
  {
    var n := SetQuantityAt(items, i, quantity);
    assert UniqueKeys(n) by {
      forall a, b | 0 <= a < b < |n| ensures !HasKey(n[b], n[a].cart, n[a].product) {
        assert !HasKey(items[b], items[a].cart, items[a].product);
      }
    }
    if HasKey(items[i], cart, product) {
      QuantityInCartAt(n, i);
    } else {
      match FindByKey(items, cart, product)
      case None =>
        forall k | 0 <= k < |n| ensures !HasKey(n[k], cart, product) {
          if k != i { assert n[k] == items[k] && items[k] in items; }
        }
      case Some(k) =>
        QuantityInCartAt(n, k);
    }
  }

  /** Deleting one item records 0 for its key and changes no other key's
      quantity. */
  lemma QuantityAfterDelete(items: seq<CartItem>, i: nat, cart: CartId, product: ProductId)
    requires UniqueKeys(items) && i < |items|
    ensures UniqueKeys(DeleteAt(items, i))
    ensures QuantityInCart(DeleteAt(items, i), cart, product) ==
              if HasKey(items[i], cart, product) then 0 else QuantityInCart(items, cart, product)
  {
    var n := DeleteAt(items, i);
    // position in `items` of the row at position k of `n`
    assert UniqueKeys(n) by {
      forall a, b | 0 <= a < b < |n| ensures !HasKey(n[b], n[a].cart, n[a].product) {
        var a', b' := if a < i then a else a + 1, if b < i then b else b + 1;
        assert n[a] == items[a'] && n[b] == items[b'];
      }
    }
    if HasKey(items[i], cart, product) {
      forall k | 0 <= k < |n| ensures !HasKey(n[k], cart, product) {
        var k' := if k < i then k else k + 1;
        assert n[k] == items[k'];
        if k' < i {
          assert !HasKey(items[i], items[k'].cart, items[k'].product);
        } else {
          assert !HasKey(items[k'], items[i].cart, items[i].product);
        }
      }
    } else {
      match FindByKey(items, cart, product)
      case None =>
        forall k | 0 <= k < |n| ensures !HasKey(n[k], cart, product) {
          var k' := if k < i then k else k + 1;
          assert n[k] == items[k'] && items[k'] in items;
        }
      case Some(k) =>
        var k' := if k < i then k else k - 1;
        assert n[k'] == items[k];
        QuantityInCartAt(n, k');
    }
  }

  /** The rows are in ascending primary-key order: each row's id is below
      the next row's. */
  ghost predicate IdsAscending(items: seq<CartItem>)
  {
    |items| <= 1 || (items[0].id < items[1].id && IdsAscending(items[1..]))
  }

  /** In ascending order, every row after the first has a higher id. */
  lemma {:induction false} AscendingHeadBelow(items: seq<CartItem>)
    requires IdsAscending(items) && items != []
    ensures forall it :: it in items[1..] ==> items[0].id < it.id
  {
    if |items| > 1 {
      AscendingHeadBelow(items[1..]);
      assert forall it :: it in items[1..][1..] ==> it in items[1..];
      forall it | it in items[1..] ensures items[0].id < it.id {
        if it != items[1] {
          var k :| 0 <= k < |items[1..]| && items[1..][k] == it;
          assert it in items[1..][1..] by { assert items[1..][1..][k - 1] == it; }
        }
      }
    }
  }

  /** Appending a row whose id is above every id in use keeps the order. */
  lemma {:induction false} AscendingAfterAppend(items: seq<CartItem>, x: CartItem)
    requires IdsAscending(items) && forall it :: it in items ==> it.id < x.id
    ensures IdsAscending(items + [x])
  {
    if items != [] {
      assert (items + [x])[1..] == items[1..] + [x];
      assert items[0] in items && (items + [x])[1] in items + [x];
      assert forall it :: it in items[1..] ==> it in items;
      AscendingAfterAppend(items[1..], x);
    }
  }

  /** A table with the same ids at the same positions keeps the order. */
  lemma {:induction false} AscendingSameIds(a: seq<CartItem>, b: seq<CartItem>)
    requires IdsAscending(a) && |a| == |b| && forall k :: 0 <= k < |a| ==> a[k].id == b[k].id
    ensures IdsAscending(b)
  {
    if |a| > 1 {
      assert a[0].id == b[0].id && a[1].id == b[1].id;
      AscendingSameIds(a[1..], b[1..]);
    }
  }

  /** Replacing a quantity keeps the order. */
  lemma AscendingAfterSet(items: seq<CartItem>, i: nat, quantity: nat)
    requires IdsAscending(items) && i < |items|
    ensures IdsAscending(SetQuantityAt(items, i, quantity))
  {
    AscendingSameIds(items, SetQuantityAt(items, i, quantity));
  }

  /** Putting in front a row with an id below every other row's keeps the
      order. */
  lemma AscendingCons(x: CartItem, w: seq<CartItem>)
    requires IdsAscending(w) && forall it :: it in w ==> x.id < it.id
    ensures IdsAscending([x] + w)
  {
    assert ([x] + w)[1..] == w;
    if w != [] { assert w[0] in w; }
  }

  /** Deleting a row keeps the order. */
  lemma {:induction false} AscendingAfterDelete(items: seq<CartItem>, i: nat)
    requires IdsAscending(items) && i < |items|
    ensures IdsAscending(DeleteAt(items, i))
  {
    var r := DeleteAt(items, i);
    if i == 0 {
      assert r == items[1..];
    } else {
      var rest := DeleteAt(items[1..], i - 1);
      AscendingAfterDelete(items[1..], i - 1);
      AscendingHeadBelow(items);
      assert r == [items[0]] + rest by {
        forall k | 0 <= k < |r| ensures r[k] == ([items[0]] + rest)[k] {
          if k > 0 { assert rest[k - 1] == items[1..][if k - 1 < i - 1 then k - 1 else k]; }
        }
      }
      forall it | it in rest ensures items[0].id < it.id {
        var k :| 0 <= k < |rest| && rest[k] == it;
        assert it == items[1..][if k < i - 1 then k else k + 1];
      }
      AscendingCons(items[0], rest);
    }
  }

  /** Filtering out a cart's rows keeps the order. */
  lemma {:induction false} AscendingWithoutCart(items: seq<CartItem>, cart: CartId)
    requires IdsAscending(items)
    ensures IdsAscending(WithoutCart(items, cart))
  {
    if items != [] {
      var rest := WithoutCart(items[1..], cart);
      assert IdsAscending(items[1..]);
      AscendingWithoutCart(items[1..], cart);
      if items[0].cart != cart {
        AscendingHeadBelow(items);
        AscendingCons(items[0], rest);
      } else {
        assert WithoutCart(items, cart) == rest;
      }
    }
  }

  /** The table's constraints survive an append of a fresh row with a new
      key, a positive quantity and an id above every id in use. */
  lemma ConstraintsAfterAppend(items: seq<CartItem>, x: CartItem)
    requires CartItemsConstraints(items) && FindByKey(items, x.cart, x.product).None?
    requires x.quantity >= 1 && forall it :: it in items ==> it.id < x.id
    ensures CartItemsConstraints(items + [x])
  {
    var n := items + [x];
    QuantityAfterAppend(items, x, x.cart, x.product);
    forall i, j | 0 <= i < j < |n| ensures n[i].id != n[j].id {
      assert n[i] in items;
    }
  }

  /** The constraints survive a positive quantity replacing another. */
  lemma ConstraintsAfterSet(items: seq<CartItem>, i: nat, quantity: nat)
    requires CartItemsConstraints(items) && i < |items| && quantity >= 1
    ensures CartItemsConstraints(SetQuantityAt(items, i, quantity))
  {
    var n := SetQuantityAt(items, i, quantity);
    QuantityAfterSet(items, i, quantity, items[i].cart, items[i].product);
    forall it | it in n ensures it.quantity >= 1 {
      var k :| 0 <= k < |n| && n[k] == it;
      if k != i { assert items[k] in items; }
    }
  }

  /** The constraints survive a deletion. */
  lemma ConstraintsAfterDelete(items: seq<CartItem>, i: nat)
    requires CartItemsConstraints(items) && i < |items|
    ensures CartItemsConstraints(DeleteAt(items, i))
  {
    var n := DeleteAt(items, i);
    QuantityAfterDelete(items, i, items[i].cart, items[i].product);
    forall a, b | 0 <= a < b < |n| ensures n[a].id != n[b].id {
      var a', b' := if a < i then a else a + 1, if b < i then b else b + 1;
      assert n[a] == items[a'] && n[b] == items[b'];
    }
    forall it | it in n ensures it.quantity >= 1 {
      var k :| 0 <= k < |n| && n[k] == it;
      assert it == items[if k < i then k else k + 1];
    }
  }

  /** The rows after the first keep the constraints, and none of them shares
      the first row's id or key. */
  lemma ConstraintsTail(items: seq<CartItem>)
    requires CartItemsConstraints(items) && items != []
    ensures CartItemsConstraints(items[1..])
    ensures forall it :: it in items[1..] ==> it.id != items[0].id && !HasKey(it, items[0].cart, items[0].product)
  {
    var rest := items[1..];
    forall it | it in rest ensures it.quantity >= 1 { assert it in items; }
    forall i, j | 0 <= i < j < |rest| ensures rest[i].id != rest[j].id && !HasKey(rest[j], rest[i].cart, rest[i].product) {
      assert rest[i] == items[i + 1] && rest[j] == items[j + 1];
    }
    forall it | it in rest ensures it.id != items[0].id && !HasKey(it, items[0].cart, items[0].product) {
      var k :| 0 <= k < |rest| && rest[k] == it;
      assert it == items[k + 1];
    }
  }

  /** Putting in front a row whose id and key no other row has keeps the
      constraints. */
  lemma ConstraintsCons(x: CartItem, w: seq<CartItem>)
    requires CartItemsConstraints(w) && x.quantity >= 1
    requires forall it :: it in w ==> it.id != x.id && !HasKey(it, x.cart, x.product)
    ensures CartItemsConstraints([x] + w)
  {
    var n := [x] + w;
    forall i, j | 0 <= i < j < |n| ensures n[i].id != n[j].id && !HasKey(n[j], n[i].cart, n[i].product) {
      assert n[j] == w[j - 1] && n[j] in w;
      if 0 < i { assert n[i] == w[i - 1]; }
    }
  }

  /** A filter that keeps the rows of the other carts keeps the constraints. */
  lemma {:induction false} ConstraintsWithoutCart(items: seq<CartItem>, cart: CartId)
    requires CartItemsConstraints(items)
    ensures CartItemsConstraints(WithoutCart(items, cart))
  {
    if items != [] {
      ConstraintsTail(items);
      ConstraintsWithoutCart(items[1..], cart);
      if items[0].cart != cart {
        ConstraintsCons(items[0], WithoutCart(items[1..], cart));
      }
    }
  }

  /** Unique keys give each cart a list of items for distinct products. */
  lemma {:induction false} ItemsOfDistinctProducts(items: seq<CartItem>, cart: CartId)
    requires UniqueKeys(items)
    ensures DistinctProducts(ItemsOf(items, cart))
  {
    if items != [] {
      var rest := items[1..];
      assert UniqueKeys(rest) by {
        forall i, j | 0 <= i < j < |rest| ensures !HasKey(rest[j], rest[i].cart, rest[i].product) {
          assert rest[i] == items[i + 1] && rest[j] == items[j + 1];
        }
      }
      ItemsOfDistinctProducts(rest, cart);
      if items[0].cart == cart {
        var w := ItemsOf(rest, cart);
        var n := [items[0]] + w;
        forall j | 0 <= j < |w| ensures items[0].product != w[j].product {
          assert w[j] in rest;
          var k :| 0 <= k < |rest| && rest[k] == w[j];
          assert w[j] == items[k + 1];
        }
        forall i, j | 0 <= i < j < |n| ensures n[i].product != n[j].product {
          if 0 < i { assert n[i] == w[i - 1] && n[j] == w[j - 1]; }
          else { assert n[j] == w[j - 1]; }
        }
      }
    }
  }
}
