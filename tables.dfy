/** The storefront's tables and the integrity the storage engine keeps for them.

    Every table is a map from an auto-increment id to a row; one counter,
    `nextId`, hands out the ids of all of them. Carts are keyed by opaque
    identifiers that the counter does not produce. Prices are exact integers
    (the smallest currency unit). */
module Tables {
  import opened Rows

  type CollectionId = nat
  type ProductId = nat
  type CartId = nat
  type CartItemId = nat
  type CustomerId = nat
  type UserId = nat
  type OrderId = nat
  type OrderItemId = nat

  datatype Option<T> = None | Some(value: T)

  /** How a request ends. */
  datatype Outcome<T> =
    | Ok(value: T)
    | ValidationError(message: string)   // 400, field-level message
    | NotFound                           // 404
    | NotAllowed(message: string)        // 405, body {"error": message}
    | Denied                             // 401/403, refused by a permission class
    | ServerError(message: string)       // 500, a storage error nobody handles

  datatype Collection = Collection(title: string)

  datatype Product = Product(title: string, unitPrice: int, inventory: int, collection: CollectionId)

  datatype CartItem = CartItem(cart: CartId, product: ProductId, quantity: nat)

  datatype Membership = Basic | Silver | Gold

  datatype Profile = Profile(phone: string, birthDate: Option<nat>, membership: Membership)

  datatype Customer = Customer(user: UserId, profile: Profile)

  datatype PaymentStatus = Pending | Complete | Failed

  datatype Order = Order(customer: CustomerId, placedAt: nat, paymentStatus: PaymentStatus)

  /** `unitPrice` is the product's price copied when the order was placed. */
  datatype OrderItem = OrderItem(order: OrderId, product: ProductId, unitPrice: int, quantity: nat)

  /** The profile a customer row gets when it is created from a user id alone. */
  const DefaultProfile := Profile("", None, Basic)

  /** Foreign-key columns, as functions usable with `Rows.Select`. */
  function CartOf(item: CartItem): nat { item.cart }
  function OrderOf(item: OrderItem): nat { item.order }
  function CustomerOf(order: Order): nat { order.customer }

  /** Some customer row belongs to `user`. */
  predicate HasCustomer(customers: map<CustomerId, Customer>, user: UserId) {
    exists k :: k in customers && customers[k].user == user
  }

  /** The customer-to-user link is one-to-one. */
  predicate UniqueUsers(customers: map<CustomerId, Customer>) {
    forall i, j :: i in customers && j in customers && customers[i].user == customers[j].user ==> i == j
  }

  /** Some item of `cart` holds `product`. */
  predicate HasItem(items: map<CartItemId, CartItem>, cart: CartId, product: ProductId) {
    exists k :: k in items && items[k].cart == cart && items[k].product == product
  }

  /** A product appears at most once in a cart. */
  predicate UniqueCartProducts(items: map<CartItemId, CartItem>) {
    forall i, j :: i in items && j in items && items[i].cart == items[j].cart && items[i].product == items[j].product ==> i == j
  }

  /** Every referenced product exists. */
  predicate ProductsExist(items: map<CartItemId, CartItem>, products: map<ProductId, Product>) {
    forall k :: k in items ==> items[k].product in products
  }

  /** The cart-item table once `cart` is deleted: its items go with it. */
  function WithoutCart(items: map<CartItemId, CartItem>, cart: CartId): map<CartItemId, CartItem> {
    map k | k in items && items[k].cart != cart :: items[k]
  }

  /** The cart-item table once `product` is deleted: the items holding it go with it. */
  function WithoutProduct(items: map<CartItemId, CartItem>, product: ProductId): map<CartItemId, CartItem> {
    map k | k in items && items[k].product != product :: items[k]
  }

  /** The whole store. Methods of the other modules change it the way the
      ORM calls of the source change the database. */
  class Database {
    var collections: map<CollectionId, Collection>
    var products: map<ProductId, Product>
    var carts: set<CartId>
    var cartItems: map<CartItemId, CartItem>
    var customers: map<CustomerId, Customer>
    var orders: map<OrderId, Order>
    var orderItems: map<OrderItemId, OrderItem>
    var nextId: nat

    /** Fresh ids lie above every key, every foreign key points at an
        existing row, and the unique constraints hold. */
    ghost predicate Valid()
      reads this
    {
      && KeysBelow(collections, nextId)
      && KeysBelow(products, nextId)
      && KeysBelow(cartItems, nextId)
      && KeysBelow(customers, nextId)
      && KeysBelow(orders, nextId)
      && KeysBelow(orderItems, nextId)
      && (forall k :: k in products ==> products[k].collection in collections)
      && (forall k :: k in cartItems ==> cartItems[k].cart in carts)
      && ProductsExist(cartItems, products)
      && UniqueCartProducts(cartItems)
      && UniqueUsers(customers)
      && (forall k :: k in orders ==> orders[k].customer in customers)
      && (forall k :: k in orderItems ==> orderItems[k].order in orders && orderItems[k].product in products)
    }

    constructor ()
      ensures Valid()
      ensures collections == map[] && products == map[] && carts == {} && cartItems == map[]
      ensures customers == map[] && orders == map[] && orderItems == map[] && nextId == 0
    {
      collections, products, carts, cartItems := map[], map[], {}, map[];
      customers, orders, orderItems, nextId := map[], map[], map[], 0;
    }

    /** `Customer.objects.get_or_create(user_id = user)`: the customer of
        `user`, created with the default profile when there is none. */
    method GetOrCreateCustomer(user: UserId) returns (id: CustomerId, created: bool)
      requires Valid()
      modifies this
      ensures Valid()
      ensures id in customers && customers[id].user == user
      ensures created <==> !HasCustomer(old(customers), user)
      ensures !created ==> customers == old(customers) && nextId == old(nextId)
      ensures created ==> id == old(nextId) && nextId == old(nextId) + 1
                          && customers == old(customers)[id := Customer(user, DefaultProfile)]
      ensures collections == old(collections) && products == old(products) && carts == old(carts)
      ensures cartItems == old(cartItems) && orders == old(orders) && orderItems == old(orderItems)
    {
      if HasCustomer(customers, user) {
        id :| id in customers && customers[id].user == user;
        created := false;
      } else {
        id, created := nextId, true;
        customers := customers[id := Customer(user, DefaultProfile)];
        nextId := nextId + 1;
      }
    }

    /** `Order.objects.create(customer_id = customer, ...)`: a new pending
        order placed at `placedAt`, under the next id. */
    method CreateOrder(customer: CustomerId, placedAt: nat) returns (id: OrderId)
      requires Valid() && customer in customers
      modifies this
      ensures Valid()
      ensures id == old(nextId) && id !in old(orders) && nextId == old(nextId) + 1
      ensures orders == old(orders)[id := Order(customer, placedAt, Pending)]
      ensures forall k :: k in old(orderItems) ==> old(orderItems)[k].order != id
      ensures collections == old(collections) && products == old(products) && carts == old(carts)
      ensures cartItems == old(cartItems) && customers == old(customers) && orderItems == old(orderItems)
    {
      id := nextId;
      orders := orders[id := Order(customer, placedAt, Pending)];
      nextId := nextId + 1;
    }

    /** `OrderItem.objects.bulk_create(rows)`: the rows get consecutive
        fresh ids starting at the next id. */
    method BulkCreateOrderItems(rows: seq<OrderItem>) returns (start: OrderItemId)
      requires Valid()
      requires forall j :: 0 <= j < |rows| ==> rows[j].order in orders && rows[j].product in products
      modifies this
      ensures Valid()
      ensures start == old(nextId) && nextId == old(nextId) + |rows|
      ensures orderItems == Inserted(old(orderItems), start, rows)
      ensures collections == old(collections) && products == old(products) && carts == old(carts)
      ensures cartItems == old(cartItems) && customers == old(customers) && orders == old(orders)
    {
      start := nextId;
      InsertedRows(orderItems, start, rows);
      orderItems := Inserted(orderItems, start, rows);
      nextId := nextId + |rows|;
    }

    /** `Cart.objects.filter(pk = cart).delete()`: the cart goes, and its
        items go with it through the cascading foreign key. */
    method DeleteCart(cart: CartId)
      requires Valid()
      modifies this
      ensures Valid()
      ensures carts == old(carts) - {cart} && cartItems == WithoutCart(old(cartItems), cart)
      ensures forall k :: k in cartItems ==> cartItems[k].cart != cart
      ensures collections == old(collections) && products == old(products) && customers == old(customers)
      ensures orders == old(orders) && orderItems == old(orderItems) && nextId == old(nextId)
    {
      carts := carts - {cart};
      cartItems := WithoutCart(cartItems, cart);
    }

    /** `product.delete()` for a product no order item holds: the product
        goes, and the cart items holding it go with it through the
        cascading foreign key. */
    method DeleteProduct(product: ProductId)
      requires Valid()
      requires forall k :: k in orderItems ==> orderItems[k].product != product
      modifies this
      ensures Valid()
      ensures products == old(products) - {product} && cartItems == WithoutProduct(old(cartItems), product)
      ensures collections == old(collections) && carts == old(carts) && customers == old(customers)
      ensures orders == old(orders) && orderItems == old(orderItems) && nextId == old(nextId)
    {
      products := products - {product};
      cartItems := WithoutProduct(cartItems, product);
    }

    /** `collection.delete()` for a collection no product belongs to. */
    method DeleteCollection(collection: CollectionId)
      requires Valid()
      requires forall k :: k in products ==> products[k].collection != collection
      modifies this
      ensures Valid()
      ensures collections == old(collections) - {collection}
      ensures products == old(products) && carts == old(carts) && cartItems == old(cartItems)
      ensures customers == old(customers) && orders == old(orders) && orderItems == old(orderItems)
      ensures nextId == old(nextId)
    {
      collections := collections - {collection};
    }

    /** `customer.save()` after the profile fields were replaced. */
    method SetProfile(customer: CustomerId, profile: Profile)
      requires Valid() && customer in customers
      modifies this
      ensures Valid()
      ensures customers == old(customers)[customer := old(customers)[customer].(profile := profile)]
      ensures collections == old(collections) && products == old(products) && carts == old(carts)
      ensures cartItems == old(cartItems) && orders == old(orders) && orderItems == old(orderItems)
      ensures nextId == old(nextId)
    {
      customers := customers[customer := customers[customer].(profile := profile)];
    }
  }
}
