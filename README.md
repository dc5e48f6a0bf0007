# Storefront core in Dafny

A model of the business core of a Django REST storefront (the `store` app).
It covers the catalogue of collections and products, anonymous carts and
their items, customers tied one-to-one to users, and orders whose items keep
a snapshot of the product's price. The behaviours modelled are:

- the line and cart totals;
- the cart-item upsert, where adding a product already in the cart raises
  that row's quantity;
- checkout: validate the cart id, create the order, copy the cart into order
  items, delete the cart;
- the guarded deletes of products and collections;
- the permission classes and the order in which the framework applies the
  gate before a handler: permission first, then the allowed methods;
- the customer's `me` endpoint and the order listing;
- the product admin's low-stock filter, its status column and its
  clear-inventory action.

The modules follow the source:

- `Rows` holds the query model. A `filter(<fk> = x)` is the ascending list of
  the ids whose row points at `x`, and a bulk insert stores its rows under
  consecutive fresh ids.
- `Tables` holds the entities as datatypes and the database as one `Database`
  class. Its map fields are the tables, `nextId` is the id counter, `Valid()`
  is referential integrity plus the unique constraints, and its methods
  mirror the ORM writes the core performs.
- `Serializers` models store/serializers.py.
- `Permissions` models store/permissions.py, together with the framework
  checks it builds on: `has_perm` and the method-to-permission map.
- `Views` models store/views.py.
- `Admin` models the product admin of store/admin.py.

Prices are exact integers in the smallest currency unit. Timestamps are the
caller's `now` parameter. Absent a model file, the model assumes these
foreign-key behaviours:

- a cart item is deleted with its cart or its product;
- a product cannot be deleted while an order item holds it;
- a collection cannot be deleted while a product belongs to it;
- a cart holds at most one item per product (a unique constraint on cart and product);
- a customer row belongs to one user and a user has at most one customer row (a one-to-one link).

Three behaviours of the source follow from the framework's routing and are
modelled as such:

- No POST reaches the order `create` handler. A logged-in user gets 405 and
  an anonymous one is denied.
- A HEAD request to `me` goes to the handler as a GET would and may create
  the customer row. The handler then returns nothing, which the framework
  answers with a 500.
- An OPTIONS request to `me` also ends in a 500, and no handler runs. The
  framework describes PUT by looking up an object by `pk`, and the
  list-level route has no `pk`.

## Model

| member | source | states |
|---|---|---|
| Tables.Database.GetOrCreateCustomer | store/serializers.py:135 | returns the user's customer row, creating one with the default profile exactly when the user has none; keeps users unique and every other table unchanged |
| Tables.Database.CreateOrder | store/serializers.py:136 | a new pending order for the customer under a fresh id that no order item refers to yet; integrity kept |
| Tables.Database.BulkCreateOrderItems | store/serializers.py:145 | the rows are stored under consecutive fresh ids from the counter on; integrity kept, other tables unchanged |
| Tables.Database.DeleteCart | store/serializers.py:147 | the cart is gone and so are exactly its items (cascade); integrity kept |
| Tables.Database.DeleteProduct | store/views.py:34 | the product is gone with exactly the cart items holding it; order items untouched; integrity kept |
| Tables.Database.DeleteCollection | store/views.py:45 | an empty collection is removed; integrity kept |
| Tables.Database.SetProfile | store/views.py:97-99 | only the customer's profile changes; integrity kept |
| Serializers.ItemTotal | store/serializers.py:50-51 | a line with quantity 0 totals 0; a non-negative price gives a non-negative total |
| Serializers.ItemTotalGrows | store/serializers.py:50-51 | adding `extra` units adds `extra` unit prices to the line total |
| Serializers.CartTotalPrice | store/serializers.py:63-67 | the accumulating loop returns the sum of quantity times price over exactly the cart's items |
| Serializers.EmptyCartTotal | store/serializers.py:63-67 | a cart with no items totals 0 |
| Serializers.LinesTotalAgree | store/serializers.py:63-67 | a total depends only on the rows it adds up |
| Serializers.LinesTotalBump | store/serializers.py:88 | raising one listed row by `extra` raises the total by `extra` unit prices |
| Serializers.ValidateProductId | store/serializers.py:76-79 | accepts exactly the ids of existing products, otherwise the source's message |
| Serializers.UpsertExistingRow | store/serializers.py:87-90 | with a row for (cart, product) present, only that row changes, by exactly the added quantity, and no row is added |
| Serializers.UpsertNewRow | store/serializers.py:91-93 | with no such row, exactly one row in the cart with that product and quantity is created under a fresh id |
| Serializers.UpsertKeepsUnique | store/serializers.py:80-95 | the upsert keeps (cart, product) unique and leaves a row for the pair |
| Serializers.AddTwiceSumsQuantities | store/serializers.py:85-93 | adding a product twice leaves one row whose quantity is the sum |
| Serializers.UpsertRaisesCartTotal | store/serializers.py:80-95 | the cart's total grows by exactly quantity times the product's price |
| Serializers.IncrementRaisesCartTotal | store/serializers.py:87-89 | the existing-row case of the total increase |
| Serializers.BumpKeepsSelection | store/serializers.py:88-89 | raising a quantity changes no cart's list of items |
| Serializers.BumpRaisesCartTotal | store/serializers.py:88-89 | raising one row of the cart raises its total by that many unit prices |
| Serializers.InsertRaisesCartTotal | store/serializers.py:93 | the new-row case of the total increase |
| Serializers.AppendRaisesCartTotal | store/serializers.py:93 | a new row adds its line total to its cart's total |
| Serializers.AppendKeepsOtherCartTotal | store/serializers.py:93 | a new row leaves other carts' totals unchanged |
| Serializers.BumpKeepsOtherCartTotal | store/serializers.py:88-89 | raising a row leaves other carts' totals unchanged |
| Serializers.UpsertKeepsOtherCartTotals | store/serializers.py:80-95 | the upsert leaves every other cart's total unchanged |
| Serializers.AddCartItem | store/serializers.py:74-95 | unknown product is a validation error; otherwise the table becomes the upsert, a new row under the next id; a new row for a missing cart is a storage error that changes nothing |
| Serializers.ItemCount | store/serializers.py:128 | the count is zero exactly when the cart holds no item |
| Serializers.ValidateCartIdAsWritten | store/serializers.py:125-130 | as written: accepts exactly an id of no cart that still has items, and refuses every existing cart as "not found" |
| Serializers.AsWrittenRejectsEveryCart | store/serializers.py:126-127 | under the cart-item foreign key no cart id at all passes the validator as written |
| Serializers.AsWrittenRefusesExistingCart | store/serializers.py:126-127 | a cart that exists and holds an item is refused as written and accepted as intended |
| Serializers.ValidateCartId | store/serializers.py:125-130 | accepts exactly an existing cart holding at least one item; otherwise the source's two messages, in the source's order |
| Serializers.OrderLines | store/serializers.py:139-143 | one order row per cart item |
| Serializers.OrderLinesMirrorCart | store/serializers.py:139-143 | each order row is in the new order and has its cart item's product and quantity and the product's current unit price |
| Serializers.SnapshotKeepsTotal | store/serializers.py:139-143 | the order rows sum to the cart's total |
| Serializers.IdsTotalAgree | store/serializers.py:145 | an order total depends only on the order rows it adds up |
| Serializers.EmptyOrderTotal | store/serializers.py:136 | a fresh order totals 0 |
| Serializers.AppendOrderRow | store/serializers.py:145 | one order row under a fresh id adds its line to its order's total |
| Serializers.InsertedOrderTotal | store/serializers.py:145 | a bulk insert of rows of one order adds their total to the order's total |
| Serializers.CheckoutTotal | store/serializers.py:132-147 | the order built from a cart totals exactly what the cart did |
| Serializers.CopyCartItems | store/serializers.py:138-145 | the order items are the cart's lines under fresh ids, and the order's total equals the cart's |
| Serializers.PlaceOrder | store/serializers.py:135-136 | a new pending order placed `now` for the user's customer, created if missing |
| Serializers.SaveOrder | store/serializers.py:132-149 | the order is created, its items are the cart's lines at current prices, its total is the cart's, and the cart and its items are gone |
| Serializers.Checkout | store/serializers.py:121-149 | succeeds exactly when the corrected validator accepts and otherwise returns its error and changes nothing; a success adds a pending order placed now for the user's customer (created with the default profile only when missing), stores one order item per cart item at the current unit price under fresh ids, makes the order total the cart's, and deletes the cart with its items; the catalogue never changes |
| Permissions.IsAdminOrReadOnly | store/permissions.py:4-9 | safe methods are allowed for everyone, and for a non-staff user only they are |
| Permissions.AdminOrReadOnlyIsUnion | store/permissions.py:4-9 | the class equals "safe method or admin user" |
| Permissions.AnonymousOnlyReads | store/permissions.py:4-9 | an anonymous visitor may only read |
| Permissions.HasPerm | store/permissions.py:18 | inactive users hold nothing, active superusers everything, other active users what they were granted |
| Permissions.ViewCustomerHistoryPermission | store/permissions.py:16-18 | allowed exactly for active users that are superusers or hold `store.view_history` |
| Permissions.HistoryNeedsGrant | store/permissions.py:16-18 | staff status alone does not grant the history, and anonymous visitors never get it |
| Permissions.CodenamesDiffer | store/permissions.py:14 | different actions give different codenames for the same model, so holding one permission never stands in for another |
| Permissions.RequiredPermissions | store/permissions.py:12 | none for a method the map lacks; otherwise one codename per template of the method's entry |
| Permissions.HasModelPermission | store/permissions.py:12 | anonymous users are refused; a method without entry is unknown; otherwise allowed exactly when every required codename is held |
| Permissions.DefaultLetsUsersRead | store/permissions.py:12 | under the default map every logged-in user may read |
| Permissions.FullPermsMap | store/permissions.py:14 | GET needs `add`; every other entry is kept |
| Permissions.FullMapReadNeedsAdd | store/permissions.py:13-14 | with the full map a GET is allowed exactly for logged-in users holding the model's `add` permission |
| Permissions.FullMapKeepsOtherMethods | store/permissions.py:13-14 | every method other than GET is judged as under the original map |
| Permissions.PermsMap.constructor | store/permissions.py:12 | the map starts as the framework's default |
| Permissions.DjangoModelPermissions.constructor | store/permissions.py:12 | the check reads the shared map |
| Permissions.DjangoModelPermissions.Check | store/permissions.py:12 | an allowed request comes from a logged-in user with a method the shared map lists; the method is unknown exactly when a logged-in user sends one the shared map does not list |
| Permissions.FullDjangoModelPermissionsAsWritten.constructor | store/permissions.py:13-14 | as written: the shared map itself gets the full GET entry |
| Permissions.SharedMapLeaks | store/permissions.py:13-14 | after one full check is built, the plain check refuses a GET it allowed before |
| Permissions.FullDjangoModelPermissions.constructor | store/permissions.py:13-14 | its own map is the full map of the shared one, which stays as it was |
| Permissions.FullDjangoModelPermissions.Check | store/permissions.py:13-14 | an allowed request comes from a logged-in user with a method its own map lists; the method is unknown exactly when a logged-in user sends one that map does not list |
| Permissions.SharedMapKept | store/permissions.py:13-14 | with the corrected class the plain check still allows the GET while the full check refuses it |
| Views.Admit | store/views.py:62 | a request reaches the handler exactly when permitted and its method is listed; an unpermitted one is denied before the method is looked at |
| Views.DestroyProduct | store/views.py:31-34 | a product held by an order item is refused with the source's message, a missing one is 404, both changing nothing; otherwise it is deleted with its cart items |
| Views.DeleteProductRequest | store/views.py:27-34 | a non-staff user is denied and nothing changes; for staff the outcome and the new state are exactly those of the product delete: the product and its cart items go, or it is refused and nothing changes |
| Views.OrderedProductExists | store/views.py:32-34 | under integrity a product an order item holds exists |
| Views.DestroyCollection | store/views.py:41-45 | a missing collection is 404, one with products is refused with the source's message, an empty one is deleted |
| Views.DeleteCollectionRequest | store/views.py:39-45 | a non-staff user is denied and nothing changes; for staff the outcome and the new state are exactly those of the collection delete: the empty collection goes, or it is refused and nothing changes |
| Views.CartItemSerializerClass | store/views.py:63-69 | POST picks the adding serializer, PATCH the updating one, anything else the reading one |
| Views.CartItemMethodsGate | store/views.py:62 | exactly GET, POST, PATCH and DELETE reach a handler; PUT, HEAD, OPTIONS and TRACE are 405 |
| Views.CartItemQueryset | store/views.py:75-78 | exactly the cart's items, in ascending id order |
| Views.UnknownCartListsNothing | store/views.py:75-78 | an unknown cart lists no item, not a 404 |
| Views.Me | store/views.py:90-100 | anonymous users are denied and unlisted methods are 405, both changing nothing; a logged-in GET or PUT always succeeds with the user's only customer row, created once with the default profile under the next id; GET returns the stored row, PUT stores the validated profile; HEAD ends in a 500 after the get-or-create; OPTIONS ends in a 500 and changes nothing |
| Views.MeTwice | store/views.py:92-100 | two GET or PUT calls by one user both succeed on the same customer row, keep the store's integrity and add no customer row other than that one; two GETs return the same row; a GET after a PUT returns the profile the PUT stored |
| Views.OrderPermission | store/views.py:105-108 | PATCH and DELETE need a staff user, every other method a logged-in one |
| Views.OrderSerializerClass | store/views.py:117-123 | POST picks the creating serializer, PATCH the updating one, anything else the reading one |
| Views.ImportFailsAsWritten | store/views.py:12 | as written, exactly one imported serializer class, `UpdateOrderSerializer`, is not defined, and it is the one a PATCH on an order is served with |
| Views.EveryPickedClassDefined | store/views.py:12 | with `UpdateOrderSerializer` defined, every imported class exists and every class the cart-item and order routes pick is defined |
| Views.OrderPostNeverCreates | store/views.py:103 | as written, no POST reaches `create` |
| Views.OrderPostWithCreate | store/views.py:103-108 | with POST listed, exactly logged-in users' POSTs reach `create` |
| Views.OrderRoutesDifferOnlyInPost | store/views.py:103 | adding POST changes the handling of no other method |
| Views.OrderCreate | store/views.py:110-115 | has exactly the checkout's outcome and new state for the requesting user: a refused cart id changes nothing, an accepted one gives a new order totalling the cart and removes the cart |
| Views.PostOrderRequest | store/views.py:103-115 | with POST listed: anonymous POSTs are denied and change nothing; a logged-in POST has exactly the checkout's outcome and new state, so a refusal changes nothing and a success totals the cart and removes it |
| Views.OrderQueryset | store/views.py:125-131 | for a user past the logged-in gate: staff get every order and nothing changes; anyone else gets exactly the orders of their own customer row; that row is kept, or added under the next id with the default profile while every other customer row stays; ascending ids |
| Admin.InventoryStatus | store/admin.py:44-47 | "Low" exactly below 10 units, "OK" exactly from 10 on |
| Admin.Lookups | store/admin.py:15-18 | one choice, `<10`, whose label is the status of exactly the products below 10 units |
| Admin.LowStock | store/admin.py:22 | exactly the listed products with fewer than 10 units, and never more than were listed |
| Admin.LowStockKeepsOrder | store/admin.py:22 | filtering keeps the listing's order |
| Admin.InventoryFilterQueryset | store/admin.py:20-22 | a narrowed list exactly for the `<10` value, None otherwise |
| Admin.LowStockChoiceMatchesStatus | store/admin.py:15-22 | choosing the offered value lists exactly the products whose status column reads as its label |
| Admin.OtherValuesKeepListing | store/admin.py:20-22 | any other value leaves the listing as it was |
| Admin.Cleared | store/admin.py:51 | same products; the selected ones have stock 0 and are otherwise unchanged; the rest are unchanged |
| Admin.ClearedIdempotent | store/admin.py:51 | clearing twice is clearing once |
| Admin.ClearedAreLowStock | store/admin.py:51 | every cleared product shows as "Low" and is kept by the low-stock filter |
| Admin.ClearInventory | store/admin.py:50-52 | the products become the cleared table and the count is the number of selected products that exist; nothing else changes |

## Left out

- `ProductSerializer.calculate_tax` is left out because it multiplies by a binary floating-point 1.1.
- Review, promotion and address entities, the review view set, `CartViewSet`'s generic create, retrieve and delete, and the history action's response are left out: they are not part of this model.
- Generic list, retrieve, update and partial-update handlers of the model view sets are left out, except where a modelled hook changes them.
- Field-level validation of request bodies is left out, because the model file is not part of this model. This covers the quantity validators, the small-integer bound, price and inventory ranges, and required customer fields. `Views.Me` takes the already validated profile.
- Pagination, search, ordering and the product filter set are left out.
- The admin's rendering is left out: `list_display`, `list_editable`, autocomplete, prepopulated slugs, inlines and the customer and order admins.
- Admin.ClearInventory: the success message sent through `message_user` is output and is not modelled; the count it reports is.
- Views: the view module is modelled as if store/serializers.py defined `UpdateOrderSerializer`. As written its import fails (see "## Findings"), so no view could serve a request.
- Serializers.AddCartItem: the storage error's text is the model's own wording. The storage backend is not part of this model.
- Views.Me: the 500 answers to HEAD and OPTIONS carry the model's own wording, not the framework's assertion texts. The OPTIONS answer follows the framework's default metadata class as it is understood here, not any shown source: to describe PUT it calls `get_object`, which asserts a `pk` URL keyword that the list-level route does not have. PUT's handling of absent optional fields is modelled as a whole validated profile.
- Concurrency is left out. Two checkouts of one cart racing past validation, and the isolation level of the checkout's transaction, are not modelled. The model runs each request to completion and treats `save` as atomic.
- Query order is left out, since the source sets none: every list is in ascending id order.
- Identifiers are left out. Cart ids are taken as given, and every id the model creates comes from one counter (`nextId`) rather than one sequence per table.
- The project's settings are not part of this model. The cart-item view set names no permission class, and it is modelled with the framework's default, which admits every request.
- Authentication is a given `User` value. An anonymous visitor is a `User` with every flag false; how the framework resolves the user is not modelled.
- Permissions.HasPerm: group permissions and custom authentication backends are not modelled; a user holds exactly their `perms` set.
- Permissions.HasModelPermission: the view's queryset lookup and `_ignore_model_permissions` are not modelled.

## Findings

| source | as written | input that shows it | evidently intended | confidence | as-written member | corrected member |
|---|---|---|---|---|---|---|
| store/serializers.py:126-127 | `validate_cart_id` raises "No cart with the ID was found" when the cart exists | cart 7 exists and holds one item; checkout of cart 7 is refused as not found, and under the cart-item foreign key every cart id is refused | refuse only a cart id that does not exist | high, not executed | Serializers.AsWrittenRejectsEveryCart | Serializers.ValidateCartId |
| store/permissions.py:13-14 | the constructor writes the GET entry into the permission map shared with `DjangoModelPermissions` and every subclass that does not declare its own `perms_map` | a logged-in user holding `store.change_product` and `store.delete_product` may GET under the plain model-permission check, until one `FullDjangoModelPermissions` is built; from then on the plain check refuses them | only the full-permission check demands `add` for GET, on a copy of the map | medium, not executed | Permissions.SharedMapLeaks | Permissions.SharedMapKept |
| store/views.py:12 | the view module imports `UpdateOrderSerializer`, which store/serializers.py never defines | importing store/views.py raises an import error, so none of its view sets serves any request | store/serializers.py defines `UpdateOrderSerializer` for the PATCH on orders | high, not executed | Views.ImportFailsAsWritten | Views.EveryPickedClassDefined |
| store/views.py:103 | `http_method_names` of the order view set leaves out `post` | a logged-in user POSTs a valid cart id to the orders; the answer is 405 and `create` never runs | POST is listed, since `create` and the POST branch of `get_serializer_class` are written for it | medium, not executed | Views.OrderPostNeverCreates | Views.OrderPostWithCreate |
