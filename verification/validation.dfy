/** The cleaning steps of the validation job, `run_validation` in
    Task_1/task_1.py: null-dropping, the positive-price filter, the
    referential filter against the cleaned orders, and the date columns.
    Timestamp parsing (`pd.to_datetime`) is the parameter `parse`. */
module Validation {
  import opened Wrappers
  import opened Records
  import opened Seqs

  /** `dropna(subset=['order_id', 'user_id', 'created_at'])` keeps the row. */
  predicate OrderComplete(o: RawOrder)
  {
    o.orderId.Some? && o.userId.Some? && o.createdAt.Some?
  }

  /** `dropna(subset=['id', 'product_id', 'sale_price'])` keeps the row. */
  predicate ItemComplete(i: RawItem)
  {
    i.id.Some? && i.productId.Some? && i.salePrice.Some?
  }

  /** `sale_price > 0` (a missing price compares false). */
  predicate PricePositive(i: RawItem)
  {
    i.salePrice.Some? && i.salePrice.value > 0
  }

  function RawOrderId(o: RawOrder): Option<int> { o.orderId }

  /** `set(orders['order_id'])` */
  function OrderIdSet(orders: seq<RawOrder>): set<int>
  {
    PresentImage(orders, RawOrderId)
  }

  /** `order_items['order_id'].isin(ids)` (a missing id is in no set). */
  function Referenced(ids: set<int>): RawItem -> bool
  {
    (i: RawItem) => i.orderId.Some? && i.orderId.value in ids
  }

  /** Step 1: orders with a missing `order_id`, `user_id` or `created_at` go. */
  function CleanOrders(orders: seq<RawOrder>): (r: seq<RawOrder>)
    ensures forall o :: o in r <==> o in orders && OrderComplete(o)
    ensures forall i :: 0 <= i < |r| ==> OrderComplete(r[i])
  {
    Filter(orders, OrderComplete)
  }

  /** Steps 2 and 3: items with a missing `id`, `product_id` or `sale_price`,
      or a non-positive price, or whose `order_id` is not among the ids of
      `cleanOrders`, go. */
  function CleanItems(items: seq<RawItem>, cleanOrders: seq<RawOrder>): (r: seq<RawItem>)
    ensures forall x :: x in r <==>
      x in items && ItemComplete(x) && PricePositive(x)
      && x.orderId.Some? && x.orderId.value in OrderIdSet(cleanOrders)
  {
    var complete := Filter(items, ItemComplete);
    var priced := Filter(complete, PricePositive);
    Filter(priced, Referenced(OrderIdSet(cleanOrders)))
  }

  /** The row filters of `run_validation`, in the order the source applies
      them: the referential filter uses the ids of the cleaned orders. */
  function CleanTables(orders: seq<RawOrder>, items: seq<RawItem>): (r: (seq<RawOrder>, seq<RawItem>))
    ensures forall i :: 0 <= i < |r.0| ==> OrderComplete(r.0[i])
    ensures forall i :: 0 <= i < |r.1| ==>
      ItemComplete(r.1[i]) && PricePositive(r.1[i])
      && r.1[i].orderId.Some? && r.1[i].orderId.value in OrderIdSet(r.0)
  {
    var cleanOrders := CleanOrders(orders);
    (cleanOrders, CleanItems(items, cleanOrders))
  }

  /** The cleaned orders keep their relative order: cleaning a concatenation
      is concatenating the cleaned parts, and a single row survives exactly
      when it is complete. */
  lemma CleanOrdersKeepsOrder(a: seq<RawOrder>, b: seq<RawOrder>, o: RawOrder)
    ensures CleanOrders(a + b) == CleanOrders(a) + CleanOrders(b)
    ensures CleanOrders([o]) == if OrderComplete(o) then [o] else []
  {
    FilterConcat(a, b, OrderComplete);
    assert [o][1..] == [];
  }

  /** The cleaned items keep their relative order in the same sense: a
      single row survives exactly when it is complete, positively priced and
      references a cleaned order. */
  lemma CleanItemsKeepsOrder(a: seq<RawItem>, b: seq<RawItem>, x: RawItem, cleanOrders: seq<RawOrder>)
    ensures CleanItems(a + b, cleanOrders) == CleanItems(a, cleanOrders) + CleanItems(b, cleanOrders)
    ensures CleanItems([x], cleanOrders) ==
      if ItemComplete(x) && PricePositive(x) && x.orderId.Some? && x.orderId.value in OrderIdSet(cleanOrders)
      then [x] else []
  {
    assert [x][1..] == [];
    var ref := Referenced(OrderIdSet(cleanOrders));
    FilterConcat(a, b, ItemComplete);
    FilterConcat(Filter(a, ItemComplete), Filter(b, ItemComplete), PricePositive);
    FilterConcat(Filter(Filter(a, ItemComplete), PricePositive), Filter(Filter(b, ItemComplete), PricePositive), ref);
  }

  /** The row filters are idempotent: cleaning cleaned tables changes nothing. */
  lemma CleanTablesIdempotent(orders: seq<RawOrder>, items: seq<RawItem>)
    ensures CleanTables(CleanTables(orders, items).0, CleanTables(orders, items).1) == CleanTables(orders, items)
  {
    var (o1, i1) := CleanTables(orders, items);
    FilterIdempotent(orders, OrderComplete);
    assert CleanOrders(o1) == o1;
    var ref := Referenced(OrderIdSet(o1));
    FilterAll(i1, ItemComplete);
    FilterAll(i1, PricePositive);
    FilterAll(i1, ref);
  }

  /** The referential filter uses the cleaned orders: an item whose only
      matching order row lacks a `user_id` is dropped. */
  lemma ReferenceToDroppedOrderIsDropped()
    ensures CleanTables([RawOrder(Some(1), None, Some("2024-01-01"), None)],
                        [RawItem(Some(10), Some(1), Some(9), Some(100), Some(500))]).1 == []
  {
    var o := RawOrder(Some(1), None, Some("2024-01-01"), None);
    var it := RawItem(Some(10), Some(1), Some(9), Some(100), Some(500));
    assert CleanOrders([o]) == [];
    assert OrderIdSet([]) == {};
    assert it !in CleanItems([it], []);
  }

  // ---------------------------------------------------------------------
  // Date columns

  /** Why `pd.to_datetime` raised. */
  datatype ValidationError = UnparseableCreatedAt | UnparseableReturnedAt

  /** The `created_at` of a row parses. */
  predicate CreatedParses(o: RawOrder, parse: string -> Option<Date>)
  {
    o.createdAt.Some? && parse(o.createdAt.value).Some?
  }

  /** The `returned_at` of a row is missing (NaT) or parses. */
  predicate ReturnedParses(o: RawOrder, parse: string -> Option<Date>)
  {
    o.returnedAt.None? || parse(o.returnedAt.value).Some?
  }

  /** The validated order built from a raw row and its parsed dates. */
  function Dated(o: RawOrder, parse: string -> Option<Date>): (r: Order)
    requires OrderComplete(o) && CreatedParses(o, parse) && ReturnedParses(o, parse)
  {
    Order(o.orderId.value, o.userId.value, o.createdAt.value, o.returnedAt,
          parse(o.createdAt.value).value,
          if o.returnedAt.Some? then parse(o.returnedAt.value) else None)
  }

  /** `o` is the raw row `raw` with dates attached. */
  predicate Carries(o: Order, raw: RawOrder)
  {
    raw.orderId == Some(o.orderId) && raw.userId == Some(o.userId)
    && raw.createdAt == Some(o.createdAt) && raw.returnedAt == o.returnedAt
  }

  /** Lines 135-136: `order_date` and `return_date` are added column by column;
      an unparseable `created_at` raises first, then an unparseable
      `returned_at`. A missing `returned_at` gives a missing `return_date`. */
  function AddDates(orders: seq<RawOrder>, parse: string -> Option<Date>): (r: Result<seq<Order>, ValidationError>)
    requires forall i :: 0 <= i < |orders| ==> OrderComplete(orders[i])
    ensures r == Err(UnparseableCreatedAt) <==>
      exists i :: 0 <= i < |orders| && !CreatedParses(orders[i], parse)
    ensures r == Err(UnparseableReturnedAt) <==>
      (forall i :: 0 <= i < |orders| ==> CreatedParses(orders[i], parse))
      && exists i :: 0 <= i < |orders| && !ReturnedParses(orders[i], parse)
    ensures r.Ok? ==> |r.value| == |orders|
    ensures r.Ok? ==> forall i :: 0 <= i < |orders| ==>
      Carries(r.value[i], orders[i])
      && Some(r.value[i].orderDate) == parse(orders[i].createdAt.value)
      && (r.value[i].returnDate.Some? <==> orders[i].returnedAt.Some?)
  {
    if exists i :: 0 <= i < |orders| && !CreatedParses(orders[i], parse) then
      Err(UnparseableCreatedAt)
    else if exists i :: 0 <= i < |orders| && !ReturnedParses(orders[i], parse) then
      Err(UnparseableReturnedAt)
    else
      assert forall i :: 0 <= i < |orders| ==> CreatedParses(orders[i], parse) && ReturnedParses(orders[i], parse);
      var r := seq(|orders|, i requires 0 <= i < |orders| => Dated(orders[i], parse));
      assert forall i :: 0 <= i < |orders| ==> r[i] == Dated(orders[i], parse);
      assert forall i :: 0 <= i < |orders| ==> Carries(r[i], orders[i]) by {
        forall i | 0 <= i < |orders| ensures Carries(r[i], orders[i]) {
          var o := orders[i];
          assert OrderComplete(o);
          assert r[i] == Dated(o, parse);
        }
      }
      assert forall i :: 0 <= i < |orders| ==> Some(r[i].orderDate) == parse(orders[i].createdAt.value);
      assert forall i :: 0 <= i < |orders| ==> (r[i].returnDate.Some? <==> orders[i].returnedAt.Some?);
      Ok(r)
  }

  /** Attaching dates keeps the set of order ids. */
  lemma DatedIdsMatch(cleanOrders: seq<RawOrder>, parse: string -> Option<Date>, dated: seq<Order>)
    requires forall i :: 0 <= i < |cleanOrders| ==> OrderComplete(cleanOrders[i])
    requires AddDates(cleanOrders, parse) == Ok(dated)
    ensures OrderIdSet(cleanOrders) <= Image(dated, OrderIdOf)
  {
    forall id | id in OrderIdSet(cleanOrders) ensures id in Image(dated, OrderIdOf) {
      var j :| 0 <= j < |cleanOrders| && RawOrderId(cleanOrders[j]) == Some(id);
      assert OrderIdOf(dated[j]) == id;
    }
  }

  /** The validated item built from a row that passed every filter. */
  function ToItem(i: RawItem): Item
    requires ItemComplete(i) && i.orderId.Some?
  {
    Item(i.id.value, i.orderId.value, i.userId, i.productId.value, i.salePrice.value)
  }

  /** `i` is the raw row `raw` with its fields present. */
  predicate ItemCarries(i: Item, raw: RawItem)
  {
    raw.id == Some(i.id) && raw.orderId == Some(i.orderId) && raw.userId == i.userId
    && raw.productId == Some(i.productId) && raw.salePrice == Some(i.salePrice)
  }

  /** The validated items built from the cleaned rows, one for one. */
  function ToItems(cleanItems: seq<RawItem>): (out: seq<Item>)
    requires forall i :: 0 <= i < |cleanItems| ==> ItemComplete(cleanItems[i]) && cleanItems[i].orderId.Some?
    ensures |out| == |cleanItems|
    ensures forall i :: 0 <= i < |out| ==> ItemCarries(out[i], cleanItems[i])
  {
    var out := seq(|cleanItems|, i requires 0 <= i < |cleanItems| => ToItem(cleanItems[i]));
    assert forall i :: 0 <= i < |out| ==> ItemCarries(out[i], cleanItems[i]) by {
      forall i | 0 <= i < |out| ensures ItemCarries(out[i], cleanItems[i]) {
        var raw := cleanItems[i];
        assert ItemComplete(raw) && raw.orderId.Some?;
        assert out[i] == Item(raw.id.value, raw.orderId.value, raw.userId, raw.productId.value, raw.salePrice.value);
      }
    }
    out
  }

  /** The three tables written to the validated area. */
  datatype Validated = Validated(products: seq<Product>, orders: seq<Order>, items: seq<Item>)

  function OrderIdOf(o: Order): int { o.orderId }

  /** `run_validation`: products pass through untouched; orders and items are
      cleaned; every surviving item references a surviving order. */
  function RunValidation(products: seq<Product>, orders: seq<RawOrder>, items: seq<RawItem>,
                         parse: string -> Option<Date>): (r: Result<Validated, ValidationError>)
    ensures r.Ok? ==> r.value.products == products
    ensures r.Ok? ==> |r.value.orders| == |CleanOrders(orders)|
    ensures r.Ok? ==> forall i :: 0 <= i < |r.value.orders| && i < |CleanOrders(orders)| ==>
      Carries(r.value.orders[i], CleanOrders(orders)[i])
    ensures r.Ok? ==> |r.value.items| == |CleanTables(orders, items).1|
    ensures r.Ok? ==> forall i :: 0 <= i < |r.value.items| && i < |CleanTables(orders, items).1| ==>
      ItemCarries(r.value.items[i], CleanTables(orders, items).1[i])
    ensures r.Ok? ==> forall i :: 0 <= i < |r.value.items| ==>
      r.value.items[i].salePrice > 0
      && r.value.items[i].orderId in Image(r.value.orders, OrderIdOf)
    ensures r.Err? <==>
      exists i :: 0 <= i < |CleanOrders(orders)| &&
        !(CreatedParses(CleanOrders(orders)[i], parse) && ReturnedParses(CleanOrders(orders)[i], parse))
  {
    var (cleanOrders, cleanItems) := CleanTables(orders, items);
    match AddDates(cleanOrders, parse)
    case Err(e) => Err(e)
    case Ok(dated) =>
      var out := ToItems(cleanItems);
      DatedIdsMatch(cleanOrders, parse, dated);
      Ok(Validated(products, dated, out))
  }
}
