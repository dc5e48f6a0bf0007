/** The business logic of store/serializers.py: line and cart totals, the
    cart-item upsert and the checkout that turns a cart into an order. */
module Serializers {
  import opened Rows
  import opened Tables

  // ---------------------------------------------------------------------
  // Totals (CartItemSerializer and CartSerializer)

  /** A cart line's total: its product's current unit price times its quantity. */
  function ItemTotal(item: CartItem, products: map<ProductId, Product>): (total: int)
    requires item.product in products
    ensures item.quantity == 0 ==> total == 0
    ensures products[item.product].unitPrice >= 0 ==> total >= 0
  {
    products[item.product].unitPrice * item.quantity
  }

  /** Adding `extra` to a line's quantity adds `extra` unit prices to its total. */
  lemma ItemTotalGrows(item: CartItem, products: map<ProductId, Product>, extra: nat)
    requires item.product in products
    ensures ItemTotal(item.(quantity := item.quantity + extra), products)
            == ItemTotal(item, products) + extra * products[item.product].unitPrice
  {
  }

  /** Every item of `ids` exists and names an existing product. */
  predicate Priced(ids: seq<CartItemId>, items: map<CartItemId, CartItem>, products: map<ProductId, Product>) {
    forall j :: 0 <= j < |ids| ==> ids[j] in items && items[ids[j]].product in products
  }

  /** The sum of the line totals of the items `ids`. */
  function LinesTotal(ids: seq<CartItemId>, items: map<CartItemId, CartItem>, products: map<ProductId, Product>): int
    requires Priced(ids, items, products)
    decreases |ids|
  {
    if ids == [] then 0
    else LinesTotal(ids[..|ids| - 1], items, products) + ItemTotal(items[ids[|ids| - 1]], products)
  }

  /** The total of `cart`: the sum of `quantity * unit_price` over its items. */
  function CartTotal(items: map<CartItemId, CartItem>, products: map<ProductId, Product>, cart: CartId, n: nat): int
    requires ProductsExist(items, products)
  {
    LinesTotal(Select(items, CartOf, cart, n), items, products)
  }

  /** `CartSerializer.calculate_total_price`: accumulate the line totals of
      the cart's items. */
  method CartTotalPrice(db: Database, cart: CartId) returns (total: int)
    requires db.Valid()
    ensures total == CartTotal(db.cartItems, db.products, cart, db.nextId)
  {
    var ids := Select(db.cartItems, CartOf, cart, db.nextId);
    total := 0;
    for i := 0 to |ids|
      invariant total == LinesTotal(ids[..i], db.cartItems, db.products)
    {
      assert ids[..i + 1][..i] == ids[..i];
      var item := db.cartItems[ids[i]];
      total := total + item.quantity * db.products[item.product].unitPrice;
    }
    assert ids[..|ids|] == ids;
  }

  /** A cart with no items totals 0. */
  lemma EmptyCartTotal(items: map<CartItemId, CartItem>, products: map<ProductId, Product>, cart: CartId, n: nat)
    requires ProductsExist(items, products)
    requires forall k :: k in items ==> items[k].cart != cart
    ensures CartTotal(items, products, cart, n) == 0
  {
    SelectEmpty(items, CartOf, cart, n);
  }

  /** The total of `ids` only depends on the rows at `ids`. */
  lemma {:induction false} LinesTotalAgree(ids: seq<CartItemId>, m: map<CartItemId, CartItem>, m': map<CartItemId, CartItem>, products: map<ProductId, Product>)
    requires Priced(ids, m, products)
    requires forall j :: 0 <= j < |ids| ==> ids[j] in m' && m'[ids[j]] == m[ids[j]]
    ensures Priced(ids, m', products)
    ensures LinesTotal(ids, m, products) == LinesTotal(ids, m', products)
    decreases |ids|
  {
    if ids != [] {
      LinesTotalAgree(ids[..|ids| - 1], m, m', products);
    }
  }

  /** Raising the quantity of the one row `id` among `ids` by `extra` raises
      their total by `extra` unit prices. */
  lemma {:induction false} LinesTotalBump(ids: seq<CartItemId>, m: map<CartItemId, CartItem>, m': map<CartItemId, CartItem>,
                                          products: map<ProductId, Product>, id: CartItemId, extra: nat)
    requires Ascending(ids) && id in ids
    requires Priced(ids, m, products) && id in m'
    requires forall j :: 0 <= j < |ids| && ids[j] != id ==> ids[j] in m' && m'[ids[j]] == m[ids[j]]
    requires m'[id] == m[id].(quantity := m[id].quantity + extra)
    ensures Priced(ids, m', products)
    ensures LinesTotal(ids, m', products) == LinesTotal(ids, m, products) + extra * products[m[id].product].unitPrice
    decreases |ids|
  {
    var init := ids[..|ids| - 1];
    var last := ids[|ids| - 1];
    if last == id {
      assert forall j :: 0 <= j < |init| ==> init[j] != id by {
        forall j | 0 <= j < |init| ensures init[j] != id {
          assert init[j] == ids[j];
        }
      }
      LinesTotalAgree(init, m, m', products);
      ItemTotalGrows(m[id], products, extra);
    } else {
      assert id in init by {
        var j :| 0 <= j < |ids| && ids[j] == id;
        assert j < |ids| - 1;
        assert init[j] == id;
      }
      LinesTotalBump(init, m, m', products, id, extra);
    }
  }

  // ---------------------------------------------------------------------
  // AddCartItemSerializer

  /** `validate_product_id`: the id must name a product. */
  function ValidateProductId(products: map<ProductId, Product>, value: ProductId): (r: Outcome<ProductId>)
    ensures r.Ok? <==> value in products
    ensures r.Ok? ==> r.value == value
    ensures !r.Ok? ==> r == ValidationError("No Product with the passed id")
  {
    if value !in products then ValidationError("No Product with the passed id") else Ok(value)
  }

  /** Every item of `cart` holding `product` gets `quantity` more. */
  function Incremented(items: map<CartItemId, CartItem>, cart: CartId, product: ProductId, quantity: nat): map<CartItemId, CartItem>
  {
    map k | k in items :: if items[k].cart == cart && items[k].product == product
                           then items[k].(quantity := items[k].quantity + quantity)
                           else items[k]
  }

  /** The cart-item table after `save`: the existing `(cart, product)` row is
      incremented, or a row is created under the fresh id `next`. */
  function Upserted(items: map<CartItemId, CartItem>, next: CartItemId, cart: CartId, product: ProductId, quantity: nat): map<CartItemId, CartItem>
  {
    if HasItem(items, cart, product) then Incremented(items, cart, product, quantity)
    else items[next := CartItem(cart, product, quantity)]
  }

  /** Upsert onto an existing row: only that row changes, and its quantity
      grows by exactly the requested amount; no row is added. */
  lemma UpsertExistingRow(items: map<CartItemId, CartItem>, next: CartItemId, cart: CartId, product: ProductId, quantity: nat, id: CartItemId)
    requires UniqueCartProducts(items)
    requires id in items && items[id].cart == cart && items[id].product == product
    ensures Upserted(items, next, cart, product, quantity).Keys == items.Keys
    ensures Upserted(items, next, cart, product, quantity)[id] == items[id].(quantity := items[id].quantity + quantity)
    ensures forall k :: k in items && k != id ==> Upserted(items, next, cart, product, quantity)[k] == items[k]
  {
  }

  /** Upsert with no row yet: exactly one row is created, in `cart`, with
      the requested product and quantity; the others stay as they were. */
  lemma UpsertNewRow(items: map<CartItemId, CartItem>, next: CartItemId, cart: CartId, product: ProductId, quantity: nat)
    requires KeysBelow(items, next)
    requires !HasItem(items, cart, product)
    ensures Upserted(items, next, cart, product, quantity).Keys == items.Keys + {next} && next !in items
    ensures Upserted(items, next, cart, product, quantity)[next] == CartItem(cart, product, quantity)
    ensures forall k :: k in items ==> Upserted(items, next, cart, product, quantity)[k] == items[k]
  {
  }

  /** The upsert keeps `(cart, product)` unique. */
  lemma UpsertKeepsUnique(items: map<CartItemId, CartItem>, next: CartItemId, cart: CartId, product: ProductId, quantity: nat)
    requires KeysBelow(items, next) && UniqueCartProducts(items)
    ensures KeysBelow(Upserted(items, next, cart, product, quantity), next + 1)
    ensures UniqueCartProducts(Upserted(items, next, cart, product, quantity))
    ensures HasItem(Upserted(items, next, cart, product, quantity), cart, product)
  {
    var m' := Upserted(items, next, cart, product, quantity);
    if !HasItem(items, cart, product) {
      assert m'[next].cart == cart && m'[next].product == product;
    } else {
      var id :| id in items && items[id].cart == cart && items[id].product == product;
      assert m'[id].cart == cart && m'[id].product == product;
    }
  }

  /** Adding the same product twice leaves one row whose quantity is the sum. */
  lemma AddTwiceSumsQuantities(items: map<CartItemId, CartItem>, next: CartItemId, cart: CartId, product: ProductId, q1: nat, q2: nat)
    requires KeysBelow(items, next) && UniqueCartProducts(items)
    requires !HasItem(items, cart, product)
    ensures var twice := Upserted(Upserted(items, next, cart, product, q1), next + 1, cart, product, q2);
            && twice.Keys == items.Keys + {next}
            && twice[next] == CartItem(cart, product, q1 + q2)
            && forall k :: k in items ==> twice[k] == items[k]
  {
    var once := Upserted(items, next, cart, product, q1);
    UpsertNewRow(items, next, cart, product, q1);
    UpsertKeepsUnique(items, next, cart, product, q1);
    UpsertExistingRow(once, next + 1, cart, product, q2, next);
  }

  /** The upsert raises the cart's total by exactly `quantity` unit prices. */
  lemma UpsertRaisesCartTotal(items: map<CartItemId, CartItem>, products: map<ProductId, Product>, next: CartItemId,
                              cart: CartId, product: ProductId, quantity: nat)
    requires KeysBelow(items, next) && UniqueCartProducts(items) && ProductsExist(items, products)
    requires product in products
    ensures ProductsExist(Upserted(items, next, cart, product, quantity), products)
    ensures CartTotal(Upserted(items, next, cart, product, quantity), products, cart, next + 1)
            == CartTotal(items, products, cart, next) + quantity * products[product].unitPrice
  {
    if HasItem(items, cart, product) {
      var id :| id in items && items[id].cart == cart && items[id].product == product;
      IncrementRaisesCartTotal(items, products, next, cart, product, quantity, id);
    } else {
      InsertRaisesCartTotal(items, products, next, cart, product, quantity);
    }
  }

  /** The existing-row half of `UpsertRaisesCartTotal`. */
  lemma IncrementRaisesCartTotal(items: map<CartItemId, CartItem>, products: map<ProductId, Product>, next: CartItemId,
                                 cart: CartId, product: ProductId, quantity: nat, id: CartItemId)
    requires KeysBelow(items, next) && UniqueCartProducts(items) && ProductsExist(items, products)
    requires id in items && items[id].cart == cart && items[id].product == product
    ensures ProductsExist(Upserted(items, next, cart, product, quantity), products)
    ensures CartTotal(Upserted(items, next, cart, product, quantity), products, cart, next + 1)
            == CartTotal(items, products, cart, next) + quantity * products[product].unitPrice
  {
    UpsertExistingRow(items, next, cart, product, quantity, id);
    BumpRaisesCartTotal(items, Upserted(items, next, cart, product, quantity), products, next, cart, quantity, id);
  }

  /** Raising one row's quantity changes no cart's selection. */
  lemma BumpKeepsSelection(items: map<CartItemId, CartItem>, m': map<CartItemId, CartItem>, next: CartItemId,
                           id: CartItemId, x: CartId)
    requires KeysBelow(items, next)
    requires id in items && m'.Keys == items.Keys && m'[id].cart == items[id].cart
    requires forall k :: k in items && k != id ==> m'[k] == items[k]
    ensures Select(m', CartOf, x, next + 1) == Select(items, CartOf, x, next)
  {
    SelectBeyondKeys(items, CartOf, x, next, next + 1);
    SelectAgree(items, m', CartOf, x, next + 1);
  }

  /** Raising one row of `cart` by `quantity` raises the cart's total by
      `quantity` unit prices of that row's product. */
  lemma BumpRaisesCartTotal(items: map<CartItemId, CartItem>, m': map<CartItemId, CartItem>, products: map<ProductId, Product>,
                            next: CartItemId, cart: CartId, quantity: nat, id: CartItemId)
    requires KeysBelow(items, next) && ProductsExist(items, products)
    requires id in items && items[id].cart == cart
    requires m'.Keys == items.Keys
    requires m'[id] == items[id].(quantity := items[id].quantity + quantity)
    requires forall k :: k in items && k != id ==> m'[k] == items[k]
    ensures ProductsExist(m', products)
    ensures CartTotal(m', products, cart, next + 1) == CartTotal(items, products, cart, next) + quantity * products[items[id].product].unitPrice
  {
    var ids := Select(items, CartOf, cart, next);
    BumpKeepsSelection(items, m', next, id, cart);
    SelectComplete(items, CartOf, cart, next, id);
    SelectAscending(items, CartOf, cart, next);
    LinesTotalBump(ids, items, m', products, id, quantity);
  }

  /** The new-row half of `UpsertRaisesCartTotal`. */
  lemma InsertRaisesCartTotal(items: map<CartItemId, CartItem>, products: map<ProductId, Product>, next: CartItemId,
                              cart: CartId, product: ProductId, quantity: nat)
    requires KeysBelow(items, next) && ProductsExist(items, products)
    requires product in products && !HasItem(items, cart, product)
    ensures ProductsExist(Upserted(items, next, cart, product, quantity), products)
    ensures CartTotal(Upserted(items, next, cart, product, quantity), products, cart, next + 1)
            == CartTotal(items, products, cart, next) + quantity * products[product].unitPrice
  {
    assert Upserted(items, next, cart, product, quantity) == items[next := CartItem(cart, product, quantity)];
    AppendRaisesCartTotal(items, products, next, CartItem(cart, product, quantity));
  }

  /** Storing a new row under the fresh id `next` adds its line total to its cart. */
  lemma AppendRaisesCartTotal(items: map<CartItemId, CartItem>, products: map<ProductId, Product>, next: CartItemId, row: CartItem)
    requires KeysBelow(items, next) && ProductsExist(items, products)
    requires row.product in products
    ensures ProductsExist(items[next := row], products)
    ensures CartTotal(items[next := row], products, row.cart, next + 1)
            == CartTotal(items, products, row.cart, next) + ItemTotal(row, products)
  {
    var m' := items[next := row];
    var ids := Select(items, CartOf, row.cart, next);
    SelectAgree(items, m', CartOf, row.cart, next);
    var ids' := Select(m', CartOf, row.cart, next + 1);
    assert ids' == ids + [next];
    assert ids'[..|ids'| - 1] == ids;
    LinesTotalAgree(ids, items, m', products);
  }

  /** Storing a new row under the fresh id `next` leaves other carts' totals alone. */
  lemma AppendKeepsOtherCartTotal(items: map<CartItemId, CartItem>, products: map<ProductId, Product>, next: CartItemId,
                                  row: CartItem, other: CartId)
    requires KeysBelow(items, next) && ProductsExist(items, products)
    requires row.product in products && other != row.cart
    ensures ProductsExist(items[next := row], products)
    ensures CartTotal(items[next := row], products, other, next + 1) == CartTotal(items, products, other, next)
  {
    var m' := items[next := row];
    var ids := Select(items, CartOf, other, next);
    SelectAgree(items, m', CartOf, other, next);
    assert Select(m', CartOf, other, next + 1) == ids;
    LinesTotalAgree(ids, items, m', products);
  }

  /** Raising a row of one cart leaves other carts' totals alone. */
  lemma BumpKeepsOtherCartTotal(items: map<CartItemId, CartItem>, m': map<CartItemId, CartItem>, products: map<ProductId, Product>,
                                next: CartItemId, quantity: nat, id: CartItemId, other: CartId)
    requires KeysBelow(items, next) && ProductsExist(items, products)
    requires id in items && items[id].cart != other
    requires m'.Keys == items.Keys
    requires m'[id] == items[id].(quantity := items[id].quantity + quantity)
    requires forall k :: k in items && k != id ==> m'[k] == items[k]
    ensures ProductsExist(m', products)
    ensures CartTotal(m', products, other, next + 1) == CartTotal(items, products, other, next)
  {
    var ids := Select(items, CartOf, other, next);
    BumpKeepsSelection(items, m', next, id, other);
    LinesTotalAgree(ids, items, m', products);
  }

  /** The upsert leaves the total of every other cart unchanged. */
  lemma UpsertKeepsOtherCartTotals(items: map<CartItemId, CartItem>, products: map<ProductId, Product>, next: CartItemId,
                                   cart: CartId, product: ProductId, quantity: nat, other: CartId)
    requires KeysBelow(items, next) && UniqueCartProducts(items) && ProductsExist(items, products)
    requires product in products && other != cart
    ensures ProductsExist(Upserted(items, next, cart, product, quantity), products)
    ensures CartTotal(Upserted(items, next, cart, product, quantity), products, other, next + 1)
            == CartTotal(items, products, other, next)
  {
    if HasItem(items, cart, product) {
      var id :| id in items && items[id].cart == cart && items[id].product == product;
      UpsertExistingRow(items, next, cart, product, quantity, id);
      BumpKeepsOtherCartTotal(items, Upserted(items, next, cart, product, quantity), products, next, quantity, id, other);
    } else {
      assert Upserted(items, next, cart, product, quantity) == items[next := CartItem(cart, product, quantity)];
      AppendKeepsOtherCartTotal(items, products, next, CartItem(cart, product, quantity), other);
    }
  }

  /** The storage error for a row naming a missing cart (the wording is the
      model's own; the storage backend is not part of this model). */
  const MissingCartMessage := "the cart the new item names does not exist"

  /** `AddCartItemSerializer`: validate the product id, then `save` into the
      cart named by the URL. Creating a row for a cart that does not exist
      breaks its foreign key, which the storage engine reports as an error. */
  method AddCartItem(db: Database, cart: CartId, product: ProductId, quantity: nat) returns (r: Outcome<CartItemId>)
    requires db.Valid()
    modifies db
    ensures db.Valid()
    ensures product !in old(db.products) ==> r == ValidationError("No Product with the passed id")
    ensures product in old(db.products) && HasItem(old(db.cartItems), cart, product) ==>
              && r.Ok? && r.value in old(db.cartItems)
              && old(db.cartItems)[r.value].cart == cart && old(db.cartItems)[r.value].product == product
              && db.cartItems == Upserted(old(db.cartItems), old(db.nextId), cart, product, quantity)
              && db.nextId == old(db.nextId)
    ensures product in old(db.products) && !HasItem(old(db.cartItems), cart, product) && cart in old(db.carts) ==>
              && r == Ok(old(db.nextId))
              && db.cartItems == Upserted(old(db.cartItems), old(db.nextId), cart, product, quantity)
              && db.nextId == old(db.nextId) + 1
    ensures product in old(db.products) && !HasItem(old(db.cartItems), cart, product) && cart !in old(db.carts) ==>
              r.ServerError?
    ensures !r.Ok? ==> db.cartItems == old(db.cartItems) && db.nextId == old(db.nextId)
    ensures db.collections == old(db.collections) && db.products == old(db.products) && db.carts == old(db.carts)
    ensures db.customers == old(db.customers) && db.orders == old(db.orders) && db.orderItems == old(db.orderItems)
  {
    var valid := ValidateProductId(db.products, product);
    if !valid.Ok? {
      return ValidationError("No Product with the passed id");
    }
    UpsertKeepsUnique(db.cartItems, db.nextId, cart, product, quantity);
    if HasItem(db.cartItems, cart, product) {
      var id :| id in db.cartItems && db.cartItems[id].cart == cart && db.cartItems[id].product == product;
      UpsertExistingRow(db.cartItems, db.nextId, cart, product, quantity, id);
      ghost var expected := Upserted(db.cartItems, db.nextId, cart, product, quantity);
      db.cartItems := db.cartItems[id := db.cartItems[id].(quantity := db.cartItems[id].quantity + quantity)];
      assert db.cartItems == expected;
      r := Ok(id);
    } else if cart !in db.carts {
      r := ServerError(MissingCartMessage);
    } else {
      db.cartItems := db.cartItems[db.nextId := CartItem(cart, product, quantity)];
      r := Ok(db.nextId);
      db.nextId := db.nextId + 1;
    }
  }

  // ---------------------------------------------------------------------
  // CreateOrderSerializer

  /** Some item belongs to `cart`. */
  predicate CartHasItems(items: map<CartItemId, CartItem>, cart: CartId) {
    exists k :: k in items && items[k].cart == cart
  }

  /** `CartItem.objects.filter(cart_id = cart)`, as a set of ids. */
  function CartItemIds(items: map<CartItemId, CartItem>, cart: CartId): set<CartItemId> {
    set k | k in items && items[k].cart == cart
  }

  /** `CartItem.objects.filter(cart_id = cart).count()`: zero exactly when
      the cart holds no item. */
  function ItemCount(items: map<CartItemId, CartItem>, cart: CartId): (count: nat)
    ensures count == 0 <==> !CartHasItems(items, cart)
  {
    var ids := CartItemIds(items, cart);
    assert CartHasItems(items, cart) ==> ids != {} by {
      if CartHasItems(items, cart) {
        var k :| k in items && items[k].cart == cart;
        assert k in ids;
      }
    }
    |ids|
  }

  /** `validate_cart_id` as the source writes it: the existence test is
      inverted, so an existing cart is refused as "not found". */
  function ValidateCartIdAsWritten(carts: set<CartId>, items: map<CartItemId, CartItem>, cartId: CartId): (r: Outcome<CartId>)
    ensures r.Ok? <==> cartId !in carts && CartHasItems(items, cartId)
    ensures cartId in carts ==> r == ValidationError("No cart with the ID was found")
    ensures cartId !in carts && !CartHasItems(items, cartId) ==> r == ValidationError("Cart is empty")
    ensures r.Ok? ==> r.value == cartId
  {
    if cartId in carts then ValidationError("No cart with the ID was found")
    else if ItemCount(items, cartId) == 0 then ValidationError("Cart is empty")
    else Ok(cartId)
  }

  /** When every cart item belongs to an existing cart (the foreign key),
      the validator as written accepts no cart id at all. */
  lemma AsWrittenRejectsEveryCart(carts: set<CartId>, items: map<CartItemId, CartItem>, cartId: CartId)
    requires forall k :: k in items ==> items[k].cart in carts
    ensures ValidateCartIdAsWritten(carts, items, cartId).ValidationError?
  {
  }

  /** A concrete input: cart 7 exists and holds one item, yet the validator
      as written refuses it as "not found". */
  lemma AsWrittenRefusesExistingCart()
    ensures ValidateCartIdAsWritten({7}, map[0 := CartItem(7, 1, 2)], 7) == ValidationError("No cart with the ID was found")
    ensures ValidateCartId({7}, map[0 := CartItem(7, 1, 2)], 7) == Ok(7)
  {
    var items := map[0 := CartItem(7, 1, 2)];
    assert 0 in items && items[0].cart == 7;
  }

  /** `validate_cart_id` as intended: the cart must exist and hold at least
      one item. */
  function ValidateCartId(carts: set<CartId>, items: map<CartItemId, CartItem>, cartId: CartId): (r: Outcome<CartId>)
    ensures r.Ok? <==> cartId in carts && CartHasItems(items, cartId)
    ensures r.Ok? ==> r.value == cartId
    ensures cartId !in carts ==> r == ValidationError("No cart with the ID was found")
    ensures cartId in carts && !CartHasItems(items, cartId) ==> r == ValidationError("Cart is empty")
  {
    if cartId !in carts then ValidationError("No cart with the ID was found")
    else if ItemCount(items, cartId) == 0 then ValidationError("Cart is empty")
    else Ok(cartId)
  }

  /** The order item made from a cart item: same product and quantity, and
      the product's unit price at this moment. */
  function Snapshot(item: CartItem, products: map<ProductId, Product>, order: OrderId): OrderItem
    requires item.product in products
  {
    OrderItem(order, item.product, products[item.product].unitPrice, item.quantity)
  }

  /** The order items made from the cart items `ids`, in the same order. */
  function OrderLines(ids: seq<CartItemId>, items: map<CartItemId, CartItem>, products: map<ProductId, Product>, order: OrderId): (rows: seq<OrderItem>)
    requires Priced(ids, items, products)
    ensures |rows| == |ids|
    decreases |ids|
  {
    if ids == [] then []
    else OrderLines(ids[..|ids| - 1], items, products, order) + [Snapshot(items[ids[|ids| - 1]], products, order)]
  }

  /** One order item per cart item, with its product, its quantity and the
      product's current unit price, all in the new order. */
  lemma {:induction false} OrderLinesMirrorCart(ids: seq<CartItemId>, items: map<CartItemId, CartItem>, products: map<ProductId, Product>,
                                                order: OrderId, i: nat)
    requires Priced(ids, items, products)
    requires i < |ids|
    ensures var row := OrderLines(ids, items, products, order)[i];
            && row.order == order
            && row.product == items[ids[i]].product
            && row.quantity == items[ids[i]].quantity
            && row.unitPrice == products[items[ids[i]].product].unitPrice
    decreases |ids|
  {
    if i < |ids| - 1 {
      OrderLinesMirrorCart(ids[..|ids| - 1], items, products, order, i);
    }
  }

  /** The sum of `unit_price * quantity` over order rows. */
  function RowsTotal(rows: seq<OrderItem>): int
    decreases |rows|
  {
    if rows == [] then 0
    else RowsTotal(rows[..|rows| - 1]) + rows[|rows| - 1].unitPrice * rows[|rows| - 1].quantity
  }

  /** The sum of `unit_price * quantity` over the order items `ids`. */
  function IdsTotal(ids: seq<OrderItemId>, orderItems: map<OrderItemId, OrderItem>): int
    requires AllIn(ids, orderItems)
    decreases |ids|
  {
    if ids == [] then 0
    else IdsTotal(ids[..|ids| - 1], orderItems) + orderItems[ids[|ids| - 1]].unitPrice * orderItems[ids[|ids| - 1]].quantity
  }

  /** The total of an order: the sum over its items of the snapshot price
      times the quantity. */
  function OrderTotal(orderItems: map<OrderItemId, OrderItem>, order: OrderId, n: nat): int {
    IdsTotal(Select(orderItems, OrderOf, order, n), orderItems)
  }

  /** Snapshotting keeps the total: the order rows sum to the cart's total. */
  lemma {:induction false} SnapshotKeepsTotal(ids: seq<CartItemId>, items: map<CartItemId, CartItem>, products: map<ProductId, Product>, order: OrderId)
    requires Priced(ids, items, products)
    ensures RowsTotal(OrderLines(ids, items, products, order)) == LinesTotal(ids, items, products)
    decreases |ids|
  {
    if ids != [] {
      SnapshotKeepsTotal(ids[..|ids| - 1], items, products, order);
      var rows := OrderLines(ids, items, products, order);
      assert rows[..|rows| - 1] == OrderLines(ids[..|ids| - 1], items, products, order);
    }
  }

  /** The total of `ids` only depends on the rows at `ids`. */
  lemma {:induction false} IdsTotalAgree(ids: seq<OrderItemId>, m: map<OrderItemId, OrderItem>, m': map<OrderItemId, OrderItem>)
    requires AllIn(ids, m)
    requires forall j :: 0 <= j < |ids| ==> ids[j] in m' && m'[ids[j]] == m[ids[j]]
    ensures AllIn(ids, m')
    ensures IdsTotal(ids, m) == IdsTotal(ids, m')
    decreases |ids|
  {
    if ids != [] {
      IdsTotalAgree(ids[..|ids| - 1], m, m');
    }
  }

  /** An order none of whose items exists totals 0. */
  lemma EmptyOrderTotal(orderItems: map<OrderItemId, OrderItem>, order: OrderId, n: nat)
    requires forall k :: k in orderItems ==> orderItems[k].order != order
    ensures OrderTotal(orderItems, order, n) == 0
  {
    SelectEmpty(orderItems, OrderOf, order, n);
  }

  /** Storing one order row under the fresh id `next` adds its line to its order's total. */
  lemma AppendOrderRow(orderItems: map<OrderItemId, OrderItem>, next: OrderItemId, row: OrderItem)
    requires KeysBelow(orderItems, next)
    ensures OrderTotal(orderItems[next := row], row.order, next + 1)
            == OrderTotal(orderItems, row.order, next) + row.unitPrice * row.quantity
  {
    var m' := orderItems[next := row];
    var ids := Select(orderItems, OrderOf, row.order, next);
    SelectAgree(orderItems, m', OrderOf, row.order, next);
    var ids' := Select(m', OrderOf, row.order, next + 1);
    assert ids' == ids + [next];
    assert ids'[..|ids'| - 1] == ids;
    IdsTotalAgree(ids, orderItems, m');
  }

  /** Bulk-inserting rows of `order` from the fresh id `start` on adds the
      rows' total to the order's total. */
  lemma {:induction false} InsertedOrderTotal(m: map<OrderItemId, OrderItem>, start: nat, rows: seq<OrderItem>, order: OrderId)
    requires KeysBelow(m, start)
    requires forall j :: 0 <= j < |rows| ==> rows[j].order == order
    ensures OrderTotal(Inserted(m, start, rows), order, start + |rows|) == OrderTotal(m, order, start) + RowsTotal(rows)
    decreases |rows|
  {
    if rows != [] {
      var init := rows[..|rows| - 1];
      var last := rows[|rows| - 1];
      InsertedOrderTotal(m, start, init, order);
      var before := Inserted(m, start, init);
      InsertedRows(m, start, init);
      AppendOrderRow(before, start + |init|, last);
      assert Inserted(m, start, rows) == before[start + |init| := last];
    }
  }

  /** The order made from a cart totals what the cart did. */
  lemma CheckoutTotal(items: map<CartItemId, CartItem>, products: map<ProductId, Product>, orderItems: map<OrderItemId, OrderItem>,
                      cart: CartId, n: nat, order: OrderId, start: nat, rows: seq<OrderItem>)
    requires ProductsExist(items, products)
    requires KeysBelow(orderItems, start)
    requires forall k :: k in orderItems ==> orderItems[k].order != order
    requires rows == OrderLines(Select(items, CartOf, cart, n), items, products, order)
    ensures OrderTotal(Inserted(orderItems, start, rows), order, start + |rows|) == CartTotal(items, products, cart, n)
  {
    var ids := Select(items, CartOf, cart, n);
    forall j | 0 <= j < |rows|
      ensures rows[j].order == order
    {
      OrderLinesMirrorCart(ids, items, products, order, j);
    }
    EmptyOrderTotal(orderItems, order, start);
    InsertedOrderTotal(orderItems, start, rows, order);
    SnapshotKeepsTotal(ids, items, products, order);
  }

  /** The line items of `save`: one order item per item of the cart, priced
      at the product's current unit price, bulk-created under fresh ids. */
  method CopyCartItems(db: Database, cartId: CartId, order: OrderId)
    requires db.Valid() && order in db.orders
    requires forall k :: k in db.orderItems ==> db.orderItems[k].order != order
    modifies db
    ensures db.Valid()
    ensures db.orderItems == Inserted(old(db.orderItems), old(db.nextId),
              OrderLines(Select(old(db.cartItems), CartOf, cartId, old(db.nextId)), old(db.cartItems), old(db.products), order))
    ensures db.nextId == old(db.nextId) + |Select(old(db.cartItems), CartOf, cartId, old(db.nextId))|
    ensures OrderTotal(db.orderItems, order, db.nextId) == old(CartTotal(db.cartItems, db.products, cartId, db.nextId))
    ensures db.collections == old(db.collections) && db.products == old(db.products) && db.carts == old(db.carts)
    ensures db.cartItems == old(db.cartItems) && db.customers == old(db.customers) && db.orders == old(db.orders)
  {
    var ids := Select(db.cartItems, CartOf, cartId, db.nextId);
    var rows := OrderLines(ids, db.cartItems, db.products, order);
    forall j | 0 <= j < |rows|
      ensures rows[j].order == order && rows[j].product in db.products
    {
      OrderLinesMirrorCart(ids, db.cartItems, db.products, order, j);
    }
    CheckoutTotal(db.cartItems, db.products, db.orderItems, cartId, db.nextId, order, db.nextId, rows);
    var start := db.BulkCreateOrderItems(rows);
  }

  /** The first half of `save`: get or create the caller's customer and
      create a pending order for it, placed at `now`. */
  method PlaceOrder(db: Database, user: UserId, now: nat) returns (order: OrderId)
    requires db.Valid()
    modifies db
    ensures db.Valid()
    ensures old(db.nextId) <= order && db.nextId == order + 1
    ensures order !in old(db.orders) && order in db.orders
    ensures db.orders == old(db.orders)[order := Order(db.orders[order].customer, now, Pending)]
    ensures db.orders[order].customer in db.customers && db.customers[db.orders[order].customer].user == user
    ensures HasCustomer(old(db.customers), user) ==> db.customers == old(db.customers)
    ensures !HasCustomer(old(db.customers), user) ==>
              var c := db.orders[order].customer;
              c !in old(db.customers) && db.customers == old(db.customers)[c := Customer(user, DefaultProfile)]
    ensures forall k :: k in db.orderItems ==> db.orderItems[k].order != order
    ensures db.collections == old(db.collections) && db.products == old(db.products) && db.carts == old(db.carts)
    ensures db.cartItems == old(db.cartItems) && db.orderItems == old(db.orderItems)
  {
    var customer, created := db.GetOrCreateCustomer(user);
    order := db.CreateOrder(customer, now);
  }

  /** `CreateOrderSerializer.save`: in one atomic block, place the order,
      copy every item of the cart into an order item and delete the cart.
      Nothing here needs the cart to exist: for an unknown cart no item is
      copied and nothing is deleted. */
  method SaveOrder(db: Database, cartId: CartId, user: UserId, now: nat) returns (order: OrderId)
    requires db.Valid()
    modifies db
    ensures db.Valid()
    ensures order !in old(db.orders) && order in db.orders
    ensures db.orders == old(db.orders)[order := Order(db.orders[order].customer, now, Pending)]
    ensures db.orders[order].customer in db.customers && db.customers[db.orders[order].customer].user == user
    ensures HasCustomer(old(db.customers), user) ==> db.customers == old(db.customers)
    ensures !HasCustomer(old(db.customers), user) ==>
              var c := db.orders[order].customer;
              c !in old(db.customers) && db.customers == old(db.customers)[c := Customer(user, DefaultProfile)]
    ensures db.orderItems == Inserted(old(db.orderItems), order + 1,
              OrderLines(Select(old(db.cartItems), CartOf, cartId, old(db.nextId)), old(db.cartItems), old(db.products), order))
    ensures OrderTotal(db.orderItems, order, db.nextId) == old(CartTotal(db.cartItems, db.products, cartId, db.nextId))
    ensures db.carts == old(db.carts) - {cartId} && db.cartItems == WithoutCart(old(db.cartItems), cartId)
    ensures db.collections == old(db.collections) && db.products == old(db.products)
  {
    ghost var next0, items0 := db.nextId, db.cartItems;
    order := PlaceOrder(db, user, now);
    assert Select(db.cartItems, CartOf, cartId, db.nextId) == Select(items0, CartOf, cartId, next0) by {
      SelectBeyondKeys(items0, CartOf, cartId, next0, db.nextId);
    }
    CopyCartItems(db, cartId, order);
    db.DeleteCart(cartId);
  }

  /** The state `CreateOrderSerializer` leaves behind. A refused cart id
      changes nothing. An accepted one yields a new pending order placed at
      `now` for the caller's customer (created with the default profile when
      missing), one order item per cart item at the product's current price
      under fresh ids, the cart's total as the order's total, and the cart
      and its items gone; the catalogue is never touched. */
  twostate predicate CheckoutEffect(db: Database, cartId: CartId, user: UserId, now: nat, new r: Outcome<OrderId>)
    requires old(db.Valid())
    reads db
  {
    && (r.Ok? <==> ValidateCartId(old(db.carts), old(db.cartItems), cartId).Ok?)
    && (!r.Ok? ==> r == ValidateCartId(old(db.carts), old(db.cartItems), cartId) && unchanged(db))
    && (r.Ok? ==>
          && r.value !in old(db.orders) && r.value in db.orders
          && db.orders == old(db.orders)[r.value := Order(db.orders[r.value].customer, now, Pending)]
          && db.orders[r.value].customer in db.customers
          && db.customers[db.orders[r.value].customer].user == user
          && (HasCustomer(old(db.customers), user) ==> db.customers == old(db.customers))
          && (!HasCustomer(old(db.customers), user) ==>
                var c := db.orders[r.value].customer;
                c !in old(db.customers) && db.customers == old(db.customers)[c := Customer(user, DefaultProfile)])
          && db.orderItems == Inserted(old(db.orderItems), r.value + 1,
               OrderLines(Select(old(db.cartItems), CartOf, cartId, old(db.nextId)), old(db.cartItems), old(db.products), r.value))
          && OrderTotal(db.orderItems, r.value, db.nextId) == old(CartTotal(db.cartItems, db.products, cartId, db.nextId))
          && db.carts == old(db.carts) - {cartId} && db.cartItems == WithoutCart(old(db.cartItems), cartId))
    && db.collections == old(db.collections) && db.products == old(db.products)
  }

  /** `CreateOrderSerializer`: `save` runs only once `validate_cart_id` has
      accepted the cart id. */
  method Checkout(db: Database, cartId: CartId, user: UserId, now: nat) returns (r: Outcome<OrderId>)
    requires db.Valid()
    modifies db
    ensures db.Valid()
    ensures CheckoutEffect(db, cartId, user, now, r)
  {
    var valid := ValidateCartId(db.carts, db.cartItems, cartId);
    if !valid.Ok? {
      return valid;
    }
    var order := SaveOrder(db, cartId, user, now);
    r := Ok(order);
    assert r.value == order;
  }
}
