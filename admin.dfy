/** The product admin of store/admin.py: the stock status column, the
    low-stock list filter and the bulk action that clears stock. */
module Admin {
  import opened Rows
  import opened Tables

  /** Below this many units a product's stock counts as low. */
  const LowStockThreshold := 10

  /** The query-string value of the low-stock choice. */
  const LowStockValue := "<10"

  // ---------------------------------------------------------------------
  // inventory_status

  /** The status column: "Low" below the threshold, "OK" from it on. */
  function InventoryStatus(p: Product): (status: string)
    ensures status == "Low" <==> p.inventory < LowStockThreshold
    ensures status == "OK" <==> p.inventory >= LowStockThreshold
  {
    if p.inventory < LowStockThreshold then "Low" else "OK"
  }

  // ---------------------------------------------------------------------
  // InventoryFilter

  /** `lookups`: the single choice (value, label) the filter offers. */
  function Lookups(): (choices: seq<(string, string)>)
    ensures |choices| == 1 && choices[0].0 == LowStockValue
    ensures forall p: Product :: choices[0].1 == InventoryStatus(p) <==> p.inventory < LowStockThreshold
  {
    [(LowStockValue, "Low")]
  }

  /** `filter(inventory__lt = 10)` over the listed products: the low-stock
      ones, in the order they were listed. */
  function LowStock(qs: seq<ProductId>, products: map<ProductId, Product>): (low: seq<ProductId>)
    requires AllIn(qs, products)
    ensures |low| <= |qs|
    ensures forall k :: k in low <==> k in qs && products[k].inventory < LowStockThreshold
    decreases |qs|
  {
    if qs == [] then []
    else
      var last := qs[|qs| - 1];
      LowStock(qs[..|qs| - 1], products) + (if products[last].inventory < LowStockThreshold then [last] else [])
  }

  /** Filtering keeps the listing's order. */
  lemma {:induction false} LowStockKeepsOrder(qs: seq<ProductId>, products: map<ProductId, Product>)
    requires AllIn(qs, products) && Ascending(qs)
    ensures Ascending(LowStock(qs, products))
    decreases |qs|
  {
    if qs != [] {
      var init := qs[..|qs| - 1];
      assert AllIn(init, products) && Ascending(init);
      LowStockKeepsOrder(init, products);
      var low := LowStock(init, products);
      forall j | 0 <= j < |low|
        ensures low[j] < qs[|qs| - 1]
      {
        assert low[j] in init;
      }
    }
  }

  /** `queryset`: the low-stock products for the low-stock choice, and None
      (the list is not narrowed) for any other value or none. */
  function InventoryFilterQueryset(value: Option<string>, qs: seq<ProductId>, products: map<ProductId, Product>)
    : (r: Option<seq<ProductId>>)
    requires AllIn(qs, products)
    ensures r.Some? <==> value == Some(LowStockValue)
    ensures r.Some? ==> r.value == LowStock(qs, products)
  {
    if value == Some(LowStockValue) then Some(LowStock(qs, products)) else None
  }

  /** The change list's rule: a filter that answers None leaves the list as it was. */
  function ApplyFilter(qs: seq<ProductId>, r: Option<seq<ProductId>>): seq<ProductId> {
    if r.None? then qs else r.value
  }

  /** With the low-stock choice the change list shows exactly the listed
      products whose status column reads as the choice's label. */
  lemma LowStockChoiceMatchesStatus(qs: seq<ProductId>, products: map<ProductId, Product>)
    requires AllIn(qs, products)
    ensures forall k :: k in ApplyFilter(qs, InventoryFilterQueryset(Some(Lookups()[0].0), qs, products))
                        <==> k in qs && InventoryStatus(products[k]) == Lookups()[0].1
  {
  }

  /** Any other value leaves the listing untouched. */
  lemma OtherValuesKeepListing(value: Option<string>, qs: seq<ProductId>, products: map<ProductId, Product>)
    requires AllIn(qs, products) && value != Some(LowStockValue)
    ensures ApplyFilter(qs, InventoryFilterQueryset(value, qs, products)) == qs
  {
  }

  // ---------------------------------------------------------------------
  // clear_inventory

  /** The product table with the stock of every selected product set to zero. */
  function Cleared(products: map<ProductId, Product>, selected: set<ProductId>): (cleared: map<ProductId, Product>)
    ensures cleared.Keys == products.Keys
    ensures forall k :: k in products && k in selected ==> cleared[k] == products[k].(inventory := 0)
    ensures forall k :: k in products && k !in selected ==> cleared[k] == products[k]
  {
    map k | k in products :: if k in selected then products[k].(inventory := 0) else products[k]
  }

  /** Clearing twice is clearing once. */
  lemma ClearedIdempotent(products: map<ProductId, Product>, selected: set<ProductId>)
    ensures Cleared(Cleared(products, selected), selected) == Cleared(products, selected)
  {
  }

  /** Every cleared product shows as low stock and is kept by the low-stock filter. */
  lemma ClearedAreLowStock(products: map<ProductId, Product>, selected: set<ProductId>, qs: seq<ProductId>, k: ProductId)
    requires AllIn(qs, products) && k in qs && k in selected
    ensures AllIn(qs, Cleared(products, selected))
    ensures InventoryStatus(Cleared(products, selected)[k]) == "Low"
    ensures k in LowStock(qs, Cleared(products, selected))
  {
  }

  /** `clear_inventory`: one update statement sets the stock of the selected
      products to zero and reports how many rows it matched. */
  method ClearInventory(db: Database, selected: set<ProductId>) returns (updated: nat)
    requires db.Valid()
    modifies db
    ensures db.Valid()
    ensures db.products == Cleared(old(db.products), selected)
    ensures updated == |selected * old(db.products).Keys|
    ensures db.collections == old(db.collections) && db.carts == old(db.carts) && db.cartItems == old(db.cartItems)
    ensures db.customers == old(db.customers) && db.orders == old(db.orders) && db.orderItems == old(db.orderItems)
    ensures db.nextId == old(db.nextId)
  {
    updated := |selected * db.products.Keys|;
    db.products := Cleared(db.products, selected);
  }
}
