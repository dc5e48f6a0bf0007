/** The view sets of store/views.py: the framework's gate in front of every
    handler (authentication and permission classes, then the allowed
    methods), the guarded deletes of products and collections, the cart-item
    and order dispatch, the customer's own profile and the order listing. */
module Views {
  import opened Rows
  import opened Tables
  import opened Permissions
  import opened Serializers

  // ---------------------------------------------------------------------
  // The framework's gate

  function MethodName(m: Method): string {
    match m
    case Get => "GET"
    case Head => "HEAD"
    case Options => "OPTIONS"
    case Post => "POST"
    case Put => "PUT"
    case Patch => "PATCH"
    case Delete => "DELETE"
    case Trace => "TRACE"
  }

  function MethodNotAllowedMessage(m: Method): string {
    "Method \"" + MethodName(m) + "\" not allowed."
  }

  /** The methods a model view set accepts unless it says otherwise. */
  const AllMethods: set<Method> := {Get, Post, Put, Patch, Delete, Head, Options, Trace}

  /** What happens before a handler runs: the permission classes are asked
      first, and only a permitted request is checked against the view's
      allowed methods. None lets the request through to the handler. */
  function Admit<T>(permitted: bool, allowed: set<Method>, m: Method): (refusal: Option<Outcome<T>>)
    ensures refusal.None? <==> permitted && m in allowed
    ensures !permitted ==> refusal == Some(Denied)
    ensures permitted && m !in allowed ==> refusal == Some(NotAllowed(MethodNotAllowedMessage(m)))
  {
    if !permitted then Some(Denied)
    else if m !in allowed then Some(NotAllowed(MethodNotAllowedMessage(m)))
    else None
  }

  /** The serializer classes the view sets pick between. */
  datatype SerializerClass =
    | CartItemSerializer | AddCartItemSerializer | UpdateCartItemSerializer
    | OrderSerializer | CreateOrderSerializer | UpdateOrderSerializer

  /** The serializer classes the view module imports; the import fails
      unless every one of them is defined. */
  const Imported: set<SerializerClass> :=
    {CartItemSerializer, AddCartItemSerializer, UpdateCartItemSerializer,
     OrderSerializer, CreateOrderSerializer, UpdateOrderSerializer}

  /** The serializer classes store/serializers.py defines as written:
      `UpdateOrderSerializer` is not among them. */
  const DefinedAsWritten: set<SerializerClass> :=
    {CartItemSerializer, AddCartItemSerializer, UpdateCartItemSerializer,
     OrderSerializer, CreateOrderSerializer}

  /** The serializer classes with `UpdateOrderSerializer` defined, as the
      order routes expect; the rest of this module assumes these. */
  const Defined: set<SerializerClass> := DefinedAsWritten + {UpdateOrderSerializer}

  /** As written the view module cannot be imported: one imported class is
      not defined, and it is the one a PATCH on an order is served with. */
  lemma ImportFailsAsWritten()
    ensures !(Imported <= DefinedAsWritten)
    ensures Imported - DefinedAsWritten == {UpdateOrderSerializer}
    ensures OrderSerializerClass(Patch) !in DefinedAsWritten
  {
  }

  /** With the class defined the import succeeds, and every class a route
      picks exists. */
  lemma EveryPickedClassDefined(m: Method)
    ensures Imported <= Defined
    ensures CartItemSerializerClass(m) in Defined && OrderSerializerClass(m) in Defined
  {
  }

  // ---------------------------------------------------------------------
  // ProductViewSet.destroy

  /** Some order item holds `product`. */
  predicate Ordered(orderItems: map<OrderItemId, OrderItem>, product: ProductId) {
    exists k :: k in orderItems && orderItems[k].product == product
  }

  const ProductInOrderMessage := "Product cannot be deleted because its associated with an order item"

  /** What the product delete leaves behind. A product some order item
      holds is refused with 405 before the product is even looked up;
      otherwise a missing product is 404 and an existing one is deleted
      together with the cart items that hold it. Nothing else changes. */
  twostate predicate ProductDestroyed(db: Database, pk: ProductId, new r: Outcome<()>)
    reads db
  {
    && (old(Ordered(db.orderItems, pk)) ==> r == NotAllowed(ProductInOrderMessage) && unchanged(db))
    && (!old(Ordered(db.orderItems, pk)) && pk !in old(db.products) ==> r == NotFound && unchanged(db))
    && (r.Ok? <==> !old(Ordered(db.orderItems, pk)) && pk in old(db.products))
    && (r.Ok? ==> && db.products == old(db.products) - {pk}
                  && db.cartItems == WithoutProduct(old(db.cartItems), pk))
    && db.collections == old(db.collections) && db.carts == old(db.carts) && db.customers == old(db.customers)
    && db.orders == old(db.orders) && db.orderItems == old(db.orderItems) && db.nextId == old(db.nextId)
  }

  /** `destroy` on a product. */
  method DestroyProduct(db: Database, pk: ProductId) returns (r: Outcome<()>)
    requires db.Valid()
    modifies db
    ensures db.Valid()
    ensures ProductDestroyed(db, pk, r)
  {
    if Ordered(db.orderItems, pk) {
      return NotAllowed(ProductInOrderMessage);
    }
    if pk !in db.products {
      return NotFound;
    }
    db.DeleteProduct(pk);
    r := Ok(());
  }

  /** DELETE on a product: the read-only-unless-staff permission, then the
      guarded delete. */
  method DeleteProductRequest(db: Database, user: User, pk: ProductId) returns (r: Outcome<()>)
    requires db.Valid()
    modifies db
    ensures db.Valid()
    ensures !user.isStaff ==> r == Denied && unchanged(db)
    ensures user.isStaff ==> ProductDestroyed(db, pk, r)
  {
    var refusal := Admit(IsAdminOrReadOnly(Delete, user), AllMethods, Delete);
    if refusal.Some? {
      return refusal.value;
    }
    r := DestroyProduct(db, pk);
  }

  /** Under the store's integrity a product an order item holds exists, so
      the order of the two checks of the product delete cannot be observed. */
  lemma OrderedProductExists(db: Database, pk: ProductId)
    requires db.Valid() && Ordered(db.orderItems, pk)
    ensures pk in db.products
  {
  }

  // ---------------------------------------------------------------------
  // CollectionViewSet.destroy

  /** Some product belongs to `collection`. */
  predicate HasProducts(products: map<ProductId, Product>, collection: CollectionId) {
    exists k :: k in products && products[k].collection == collection
  }

  const CollectionInUseMessage := "Collection cannot be deleted because its associated with products"

  /** What the collection delete leaves behind. A missing collection is
      404, one that still has products is refused with 405, an empty one is
      deleted. Nothing else changes. */
  twostate predicate CollectionDestroyed(db: Database, pk: CollectionId, new r: Outcome<()>)
    reads db
  {
    && (pk !in old(db.collections) ==> r == NotFound && unchanged(db))
    && (pk in old(db.collections) && old(HasProducts(db.products, pk))
        ==> r == NotAllowed(CollectionInUseMessage) && unchanged(db))
    && (r.Ok? <==> pk in old(db.collections) && !old(HasProducts(db.products, pk)))
    && (r.Ok? ==> db.collections == old(db.collections) - {pk})
    && db.products == old(db.products) && db.carts == old(db.carts) && db.cartItems == old(db.cartItems)
    && db.customers == old(db.customers) && db.orders == old(db.orders) && db.orderItems == old(db.orderItems)
    && db.nextId == old(db.nextId)
  }

  /** `destroy` on a collection. */
  method DestroyCollection(db: Database, pk: CollectionId) returns (r: Outcome<()>)
    requires db.Valid()
    modifies db
    ensures db.Valid()
    ensures CollectionDestroyed(db, pk, r)
  {
    if pk !in db.collections {
      return NotFound;
    }
    if HasProducts(db.products, pk) {
      return NotAllowed(CollectionInUseMessage);
    }
    db.DeleteCollection(pk);
    r := Ok(());
  }

  /** DELETE on a collection: the read-only-unless-staff permission, then
      the guarded delete. */
  method DeleteCollectionRequest(db: Database, user: User, pk: CollectionId) returns (r: Outcome<()>)
    requires db.Valid()
    modifies db
    ensures db.Valid()
    ensures !user.isStaff ==> r == Denied && unchanged(db)
    ensures user.isStaff ==> CollectionDestroyed(db, pk, r)
  {
    var refusal := Admit(IsAdminOrReadOnly(Delete, user), AllMethods, Delete);
    if refusal.Some? {
      return refusal.value;
    }
    r := DestroyCollection(db, pk);
  }

  // ---------------------------------------------------------------------
  // CartItemViewSet

  /** The cart-item routes accept GET, POST, PATCH and DELETE only. */
  const CartItemMethods: set<Method> := {Get, Post, Patch, Delete}

  /** POST adds an item, PATCH changes a quantity, everything else reads. */
  function CartItemSerializerClass(m: Method): (c: SerializerClass)
    ensures c == AddCartItemSerializer <==> m == Post
    ensures c == UpdateCartItemSerializer <==> m == Patch
    ensures c == CartItemSerializer <==> m != Post && m != Patch
  {
    if m == Post then AddCartItemSerializer
    else if m == Patch then UpdateCartItemSerializer
    else CartItemSerializer
  }

  /** The cart-item routes have no permission class: every method they list
      reaches a handler, and PUT, HEAD, OPTIONS and TRACE are refused with 405. */
  lemma CartItemMethodsGate(m: Method)
    ensures Admit<()>(true, CartItemMethods, m).None? <==> m == Get || m == Post || m == Patch || m == Delete
    ensures m == Put || m == Head || m == Options || m == Trace
            ==> Admit<()>(true, CartItemMethods, m) == Some(NotAllowed(MethodNotAllowedMessage(m)))
  {
  }

  /** `CartItem.objects.filter(cart_id = cart)`: exactly the cart's items,
      in ascending id order. */
  function CartItemQueryset(items: map<CartItemId, CartItem>, cart: CartId, n: nat): (ids: seq<CartItemId>)
    requires KeysBelow(items, n)
    ensures Ascending(ids)
    ensures forall k :: k in ids <==> k in items && items[k].cart == cart
  {
    SelectAscending(items, CartOf, cart, n);
    SelectExact(items, CartOf, cart, n);
    Select(items, CartOf, cart, n)
  }

  /** The cart id of the route is not looked up: an unknown cart lists no item. */
  lemma UnknownCartListsNothing(db: Database, cart: CartId)
    requires db.Valid() && cart !in db.carts
    ensures CartItemQueryset(db.cartItems, cart, db.nextId) == []
  {
    SelectEmpty(db.cartItems, CartOf, cart, db.nextId);
  }

  // ---------------------------------------------------------------------
  // CustomerViewSet.me

  /** The methods routed to `me`: the two it names, HEAD (answered by the
      GET route) and OPTIONS (answered by the framework). */
  const MeMethods: set<Method> := {Get, Put, Head, Options}

  /** The caller's customer row after a get-or-create: an existing row
      leaves the table as it was, a missing one is added under the next
      free id with the default profile. */
  twostate predicate CustomerEnsured(db: Database, user: UserId)
    reads db
  {
    && (HasCustomer(old(db.customers), user) ==> db.customers == old(db.customers) && db.nextId == old(db.nextId))
    && (!HasCustomer(old(db.customers), user) ==>
          && db.customers == old(db.customers)[old(db.nextId) := Customer(user, DefaultProfile)]
          && db.nextId == old(db.nextId) + 1)
  }

  /** The 500 a handler causes when it returns no response (the wording is
      the model's own). */
  const NoResponseMessage := "the view returned no response"

  /** The 500 of an OPTIONS request: describing PUT makes the framework look
      up the object by a `pk` the list route does not carry (the wording
      is the model's own). */
  const NoLookupKeyMessage := "the route carries no pk to look the object up by"

  /** `me`: a logged-in user's own customer row, created with the default
      profile on first use; GET returns it, PUT replaces its profile with the
      validated `data`. A HEAD request reaches the handler too, creates the
      row if needed, and then falls through both branches without a
      response; an OPTIONS request fails before any handler runs. */
  method Me(db: Database, user: User, m: Method, data: Profile) returns (r: Outcome<(CustomerId, Customer)>)
    requires db.Valid()
    modifies db
    ensures db.Valid()
    ensures !user.isAuthenticated ==> r == Denied && unchanged(db)
    ensures user.isAuthenticated && m !in MeMethods ==> r == NotAllowed(MethodNotAllowedMessage(m)) && unchanged(db)
    ensures user.isAuthenticated && m == Options ==> r == ServerError(NoLookupKeyMessage) && unchanged(db)
    ensures user.isAuthenticated && m == Head ==> r == ServerError(NoResponseMessage) && CustomerEnsured(db, user.id)
    ensures r.Ok? <==> user.isAuthenticated && (m == Get || m == Put)
    ensures r.Ok? ==>
              var (id, c) := r.value;
              && id in db.customers && db.customers[id] == c && c.user == user.id
              && (forall k :: k in db.customers && db.customers[k].user == user.id ==> k == id)
              && db.customers == old(db.customers)[id := c]
              && (HasCustomer(old(db.customers), user.id) <==> id in old(db.customers))
              && (!HasCustomer(old(db.customers), user.id) ==> id == old(db.nextId) && db.nextId == old(db.nextId) + 1)
    ensures r.Ok? && m == Get ==>
              && CustomerEnsured(db, user.id)
              && r.value.1 == if r.value.0 in old(db.customers) then old(db.customers)[r.value.0] else Customer(user.id, DefaultProfile)
    ensures r.Ok? && m == Put ==> r.value.1 == Customer(user.id, data)
    ensures HasCustomer(old(db.customers), user.id) ==> db.customers.Keys == old(db.customers.Keys) && db.nextId == old(db.nextId)
    ensures db.collections == old(db.collections) && db.products == old(db.products) && db.carts == old(db.carts)
    ensures db.cartItems == old(db.cartItems) && db.orders == old(db.orders) && db.orderItems == old(db.orderItems)
  {
    var refusal := Admit(IsAuthenticated(user), MeMethods, m);
    if refusal.Some? {
      return refusal.value;
    }
    if m == Options {
      return ServerError(NoLookupKeyMessage);
    }
    var id, created := db.GetOrCreateCustomer(user.id);
    if m == Get {
      r := Ok((id, db.customers[id]));
    } else if m == Put {
      db.SetProfile(id, data);
      r := Ok((id, db.customers[id]));
    } else {
      r := ServerError(NoResponseMessage);
    }
  }

  /** Two calls of `me` by one user, each a GET or a PUT: both succeed on the
      same customer row, and a GET after a PUT returns the profile the PUT
      stored. */
  method MeTwice(db: Database, user: User, first: Method, second: Method, data1: Profile, data2: Profile)
    returns (r1: Outcome<(CustomerId, Customer)>, r2: Outcome<(CustomerId, Customer)>)
    requires db.Valid() && user.isAuthenticated
    requires (first == Get || first == Put) && (second == Get || second == Put)
    modifies db
    ensures db.Valid()
    ensures r1.Ok? && r2.Ok? && r1.value.0 == r2.value.0
    ensures db.customers.Keys <= old(db.customers).Keys + {r1.value.0}
    ensures first == Put && second == Get ==> r2.value.1 == Customer(user.id, data1)
    ensures first == Get && second == Get ==> r2.value.1 == r1.value.1
  {
    r1 := Me(db, user, first, data1);
    r2 := Me(db, user, second, data2);
  }

  // ---------------------------------------------------------------------
  // OrderViewSet

  /** The order routes as written: POST is not among them. */
  const OrderMethods: set<Method> := {Get, Patch, Delete, Head, Options}

  /** The order routes with POST, which `create` and the serializer choice
      are written for. */
  const OrderMethodsWithCreate: set<Method> := {Get, Post, Patch, Delete, Head, Options}

  /** `get_permissions`: updating and deleting orders is for staff, every
      other method for any logged-in user. */
  function OrderPermission(m: Method, user: User): (allowed: bool)
    ensures m == Patch || m == Delete ==> (allowed <==> IsAdminUser(user))
    ensures m != Patch && m != Delete ==> (allowed <==> IsAuthenticated(user))
  {
    if m == Patch || m == Delete then IsAdminUser(user) else IsAuthenticated(user)
  }

  /** POST creates, PATCH updates the payment status, everything else reads. */
  function OrderSerializerClass(m: Method): (c: SerializerClass)
    ensures c == CreateOrderSerializer <==> m == Post
    ensures c == UpdateOrderSerializer <==> m == Patch
    ensures c == OrderSerializer <==> m != Post && m != Patch
  {
    if m == Post then CreateOrderSerializer
    else if m == Patch then UpdateOrderSerializer
    else OrderSerializer
  }

  /** As written, no POST ever reaches `create`: an anonymous one is denied,
      a logged-in one is refused with 405. */
  lemma OrderPostNeverCreates(user: User)
    ensures Admit<OrderId>(OrderPermission(Post, user), OrderMethods, Post)
            == Some(if user.isAuthenticated then NotAllowed(MethodNotAllowedMessage(Post)) else Denied)
  {
  }

  /** With POST among the routes, a logged-in user's POST reaches `create`
      and an anonymous one is denied. */
  lemma OrderPostWithCreate(user: User)
    ensures Admit<OrderId>(OrderPermission(Post, user), OrderMethodsWithCreate, Post).None? <==> user.isAuthenticated
    ensures !user.isAuthenticated ==> Admit<OrderId>(OrderPermission(Post, user), OrderMethodsWithCreate, Post) == Some(Denied)
  {
  }

  /** No method other than POST is told apart by the two route lists. */
  lemma OrderRoutesDifferOnlyInPost(m: Method, user: User)
    requires m != Post
    ensures Admit<OrderId>(OrderPermission(m, user), OrderMethods, m)
            == Admit<OrderId>(OrderPermission(m, user), OrderMethodsWithCreate, m)
  {
  }

  /** `create`: check out the cart for the requesting user. */
  method OrderCreate(db: Database, user: User, cartId: CartId, now: nat) returns (r: Outcome<OrderId>)
    requires db.Valid()
    modifies db
    ensures db.Valid()
    ensures CheckoutEffect(db, cartId, user.id, now, r)
  {
    r := Checkout(db, cartId, user.id, now);
  }

  /** POST on the orders with POST among the routes: logged-in users reach
      `create`, anonymous ones are denied and change nothing. */
  method PostOrderRequest(db: Database, user: User, cartId: CartId, now: nat) returns (r: Outcome<OrderId>)
    requires db.Valid()
    modifies db
    ensures db.Valid()
    ensures !user.isAuthenticated ==> r == Denied && unchanged(db)
    ensures user.isAuthenticated ==> CheckoutEffect(db, cartId, user.id, now, r)
  {
    var refusal := Admit(OrderPermission(Post, user), OrderMethodsWithCreate, Post);
    if refusal.Some? {
      return refusal.value;
    }
    r := OrderCreate(db, user, cartId, now);
  }

  /** `get_queryset`: staff see every order; anyone else sees the orders of
      their own customer row, which is created if missing. It runs only
      after the `IsAuthenticated` gate of `get_permissions` has let the
      request through, so the user is logged in. */
  method OrderQueryset(db: Database, user: User) returns (ids: seq<OrderId>)
    requires db.Valid() && user.isAuthenticated
    modifies db
    ensures db.Valid()
    ensures Ascending(ids)
    ensures user.isStaff ==> unchanged(db) && forall k :: k in ids <==> k in db.orders
    ensures !user.isStaff ==> HasCustomer(db.customers, user.id) && CustomerEnsured(db, user.id)
    ensures !user.isStaff ==> forall k :: k in ids <==> (&& k in db.orders
                                                       && db.orders[k].customer in db.customers
                                                       && db.customers[db.orders[k].customer].user == user.id)
    ensures db.collections == old(db.collections) && db.products == old(db.products) && db.carts == old(db.carts)
    ensures db.cartItems == old(db.cartItems) && db.orders == old(db.orders) && db.orderItems == old(db.orderItems)
  {
    if user.isStaff {
      AllIdsAscending(db.orders, db.nextId);
      return AllIds(db.orders, db.nextId);
    }
    var customer, created := db.GetOrCreateCustomer(user.id);
    SelectAscending(db.orders, CustomerOf, customer, db.nextId);
    SelectExact(db.orders, CustomerOf, customer, db.nextId);
    ids := Select(db.orders, CustomerOf, customer, db.nextId);
  }
}
