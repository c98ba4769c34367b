/** The KPI computation of the transformation job, `run_transformation` in
    Task_2/task_2.py: the product-to-category lookup, the inner join of order
    items with orders, and the two group-bys.

    Aggregates are kept exact (prices in integer cents, counts as naturals);
    the ratios are real numbers and the final rounding is the parameter
    `round(x, places)`. Group rows are listed in order of first appearance
    of their key. */
module Transformation {
  import opened Wrappers
  import opened Records
  import opened Seqs

  // ---------------------------------------------------------------------
  // Product -> category lookup

  /** No product row after position `i` has the same id as row `i`. */
  predicate LastWithId(products: seq<Product>, i: int)
    requires 0 <= i < |products|
  {
    forall j :: i < j < |products| ==> products[j].id != products[i].id
  }

  /** `dict(zip(products['id'], products['category']))`: a later row with the
      same id overwrites an earlier one. Rows with a missing id never match a
      (present) `product_id`, so they are left out. */
  function CategoryMap(products: seq<Product>): (m: map<int, Option<string>>)
    ensures forall pid :: pid in m <==> exists i :: 0 <= i < |products| && products[i].id == Some(pid)
    ensures forall i :: 0 <= i < |products| && products[i].id.Some? && LastWithId(products, i) ==>
      products[i].id.value in m && m[products[i].id.value] == products[i].category
  {
    if products == [] then map[]
    else
      var init := products[..|products| - 1];
      var last := products[|products| - 1];
      var m0 := CategoryMap(init);
      assert forall i :: 0 <= i < |init| ==> init[i] == products[i];
      assert forall i :: 0 <= i < |init| && LastWithId(products, i) ==> LastWithId(init, i);
      if last.id.Some? then m0[last.id.value := last.category] else m0
  }

  /** The category looked up for a product id is the one on the last product
      row with that id, and missing when no row has it. */
  lemma CategoryOfProducts(products: seq<Product>, pid: int)
    ensures (forall i :: 0 <= i < |products| ==> products[i].id != Some(pid)) ==>
      CategoryOf(CategoryMap(products), pid) == None
    ensures forall i :: 0 <= i < |products| && products[i].id == Some(pid) && LastWithId(products, i) ==>
      CategoryOf(CategoryMap(products), pid) == products[i].category
  {
  }

  /** `merged['product_id'].map(product_map)`: a product id with no entry gets
      a missing category. */
  function CategoryOf(m: map<int, Option<string>>, productId: int): Option<string>
  {
    if productId in m then m[productId] else None
  }

  // ---------------------------------------------------------------------
  // The joined table

  /** A row of `merged`: an item, its order and the item's category. */
  datatype Row = Row(item: Item, order: Order, category: Option<string>)

  /** `orders['returned_at'].notna()` */
  predicate Returned(r: Row)
  {
    r.order.returnedAt.Some?
  }

  /** The join column `order_id`. */
  function RowOrderId(r: Row): int { r.item.orderId }

  /** `total_price`, which is `sale_price`, in cents. */
  function Price(r: Row): int { r.item.salePrice }

  /** `user_id_x`: the item side's user id. */
  function Customer(r: Row): Option<int> { r.item.userId }

  /** The `order_date` group key. */
  function DateKey(r: Row): Date { r.order.orderDate }

  /** The `(category, order_date)` group key. */
  function CategoryKey(r: Row): (Option<string>, Date) { (r.category, r.order.orderDate) }

  function MatchesOrder(orderId: int): Order -> bool
  {
    (o: Order) => o.orderId == orderId
  }

  /** The joined rows contributed by one item: one per order with its id, in
      the orders' order. */
  function RowsOf(i: Item, orders: seq<Order>, m: map<int, Option<string>>): (r: seq<Row>)
    ensures forall x :: x in r <==>
      x.item == i && x.order in orders && i.orderId == x.order.orderId && x.category == CategoryOf(m, i.productId)
    ensures |r| == |Filter(orders, MatchesOrder(i.orderId))|
    ensures forall k :: 0 <= k < |r| ==> r[k].order == Filter(orders, MatchesOrder(i.orderId))[k]
    ensures (forall o :: o in orders ==> o.orderId != i.orderId) ==> r == []
  {
    var matching := Filter(orders, MatchesOrder(i.orderId));
    assert (forall o :: o in orders ==> o.orderId != i.orderId) ==> matching == [] by {
      if forall o :: o in orders ==> o.orderId != i.orderId {
        FilterNone(orders, MatchesOrder(i.orderId));
      }
    }
    var r := seq(|matching|, k requires 0 <= k < |matching| => Row(i, matching[k], CategoryOf(m, i.productId)));
    assert forall x :: x in r ==> x.order in matching;
    assert forall o :: o in matching ==> Row(i, o, CategoryOf(m, i.productId)) in r by {
      forall o | o in matching ensures Row(i, o, CategoryOf(m, i.productId)) in r {
        var k :| 0 <= k < |matching| && matching[k] == o;
        assert r[k] == Row(i, o, CategoryOf(m, i.productId));
      }
    }
    r
  }

  /** `order_items.merge(orders, on='order_id', how='inner')` with the category
      attached: exactly the (item, order) pairs with equal `order_id`. */
  function Join(items: seq<Item>, orders: seq<Order>, m: map<int, Option<string>>): (r: seq<Row>)
    ensures forall x :: x in r <==>
      x.item in items && x.order in orders && x.item.orderId == x.order.orderId
      && x.category == CategoryOf(m, x.item.productId)
  {
    if items == [] then []
    else
      var rest := Join(items[1..], orders, m);
      assert forall x :: x in items <==> x == items[0] || x in items[1..] by {
        assert items == [items[0]] + items[1..];
      }
      RowsOf(items[0], orders, m) + rest
  }

  // ---------------------------------------------------------------------
  // Group aggregates

  /** One row of the `(category, order_date)` group-by, before the ratios. */
  datatype CategoryAgg = CategoryAgg(
    category: string, orderDate: Date,
    dailyRevenue: int,   // sum of total_price
    orderCount: nat,     // nunique of order_id
    returnCount: nat)    // sum of is_returned over the group's item rows

  /** One row of the `order_date` group-by, before the ratio. */
  datatype OrderAgg = OrderAgg(
    orderDate: Date,
    totalOrders: nat,       // nunique of order_id
    totalRevenue: int,      // sum of total_price
    totalItemsSold: nat,    // count of item id
    returnedItems: nat,     // number of True in is_returned
    uniqueCustomers: nat)   // nunique of user_id_x

  /** The aggregates of one `(category, order_date)` group. `return_count`
      counts joined item rows, not distinct orders. */
  function AggregateCategory(c: string, d: Date, g: seq<Row>): (a: CategoryAgg)
    ensures a.category == c && a.orderDate == d
    ensures |g| > 0 ==> 1 <= a.orderCount <= |g|
    ensures a.returnCount <= |g|
    ensures a.returnCount == |Filter(g, Returned)|
  {
    CategoryAgg(c, d, Sum(g, Price), |Image(g, RowOrderId)|, |Filter(g, Returned)|)
  }

  /** The aggregates of one `order_date` group. */
  function AggregateOrder(d: Date, g: seq<Row>): (a: OrderAgg)
    ensures a.orderDate == d
    ensures a.totalItemsSold == |g|
    ensures |g| > 0 ==> 1 <= a.totalOrders <= a.totalItemsSold
    ensures a.uniqueCustomers <= a.totalItemsSold
    ensures a.returnedItems <= a.totalItemsSold
  {
    OrderAgg(d, |Image(g, RowOrderId)|, Sum(g, Price), |g|, |Filter(g, Returned)|,
             |PresentImage(g, Customer)|)
  }

  /** A category key is one pandas keeps: its category is present. */
  predicate HasCategory(k: (Option<string>, Date)) { k.0.Some? }

  /** The group keys of the category table: the distinct `(category,
      order_date)` pairs, without the pairs whose category is missing
      (pandas' default `dropna=True`). */
  function CategoryKeys(rows: seq<Row>): (ks: seq<(Option<string>, Date)>)
    ensures NoDups(ks)
    ensures forall k :: k in ks <==> k.0.Some? && exists r :: r in rows && CategoryKey(r) == k
  {
    var all := Distinct(Column(rows, CategoryKey));
    assert forall k :: k in all <==> exists r :: r in rows && CategoryKey(r) == k by {
      forall k | k in all ensures exists r :: r in rows && CategoryKey(r) == k {
        var i :| 0 <= i < |rows| && Column(rows, CategoryKey)[i] == k;
        assert rows[i] in rows;
      }
      forall k | exists r :: r in rows && CategoryKey(r) == k ensures k in all {
        var r :| r in rows && CategoryKey(r) == k;
        var i :| 0 <= i < |rows| && rows[i] == r;
        assert Column(rows, CategoryKey)[i] == k;
      }
    }
    FilterNoDups(all, HasCategory);
    Filter(all, HasCategory)
  }

  /** The group keys of the order table: the distinct order dates. */
  function OrderKeys(rows: seq<Row>): (ds: seq<Date>)
    ensures NoDups(ds)
    ensures forall d :: d in ds <==> exists r :: r in rows && DateKey(r) == d
  {
    var all := Distinct(Column(rows, DateKey));
    assert forall d :: d in all <==> exists r :: r in rows && DateKey(r) == d by {
      forall d | d in all ensures exists r :: r in rows && DateKey(r) == d {
        var i :| 0 <= i < |rows| && Column(rows, DateKey)[i] == d;
        assert rows[i] in rows;
      }
      forall d | exists r :: r in rows && DateKey(r) == d ensures d in all {
        var r :| r in rows && DateKey(r) == d;
        var i :| 0 <= i < |rows| && rows[i] == r;
        assert Column(rows, DateKey)[i] == d;
      }
    }
    all
  }

  /** The category table over the keys `ks`, one row per key. */
  function CategoryRows(ks: seq<(Option<string>, Date)>, rows: seq<Row>): (t: seq<CategoryAgg>)
    requires forall i :: 0 <= i < |ks| ==> ks[i].0.Some?
    ensures |t| == |ks|
    ensures forall i :: 0 <= i < |ks| ==>
      t[i] == AggregateCategory(ks[i].0.value, ks[i].1, Group(rows, CategoryKey, ks[i]))
  {
    if ks == [] then []
    else [AggregateCategory(ks[0].0.value, ks[0].1, Group(rows, CategoryKey, ks[0]))] + CategoryRows(ks[1..], rows)
  }

  /** The order table over the dates `ds`, one row per date. */
  function OrderRows(ds: seq<Date>, rows: seq<Row>): (t: seq<OrderAgg>)
    ensures |t| == |ds|
    ensures forall i :: 0 <= i < |ds| ==> t[i] == AggregateOrder(ds[i], Group(rows, DateKey, ds[i]))
  {
    if ds == [] then []
    else [AggregateOrder(ds[0], Group(rows, DateKey, ds[0]))] + OrderRows(ds[1..], rows)
  }

  /** The key of a category-table row, as a group key. */
  function CategoryRowKey(a: CategoryAgg): (Option<string>, Date) { (Some(a.category), a.orderDate) }

  /** `merged.groupby(['category', 'order_date']).agg(...)`: one row per
      category and date that occur together in a joined row with a present
      category; every group is non-empty and has between 1 and its row count
      distinct orders. */
  function CategoryTable(rows: seq<Row>): (t: seq<CategoryAgg>)
    ensures Column(t, CategoryRowKey) == CategoryKeys(rows)
    ensures forall i :: 0 <= i < |t| ==>
      var g := Group(rows, CategoryKey, CategoryRowKey(t[i]));
      |g| > 0 && 1 <= t[i].orderCount <= |g| && t[i].returnCount <= |g|
    ensures forall i :: 0 <= i < |t| ==>
      var g := Group(rows, CategoryKey, CategoryRowKey(t[i]));
      t[i].dailyRevenue == Sum(g, Price) && t[i].orderCount == |Image(g, RowOrderId)|
      && t[i].returnCount == |Filter(g, Returned)|
  {
    var ks := CategoryKeys(rows);
    var t := CategoryRows(ks, rows);
    forall i | 0 <= i < |t| ensures CategoryRowKey(t[i]) == ks[i] && |Group(rows, CategoryKey, ks[i])| > 0 {
      assert ks[i] in ks;
      var r :| r in rows && CategoryKey(r) == ks[i];
      assert r in Group(rows, CategoryKey, ks[i]);
    }
    assert Column(t, CategoryRowKey) == ks;
    t
  }

  /** The key of an order-table row. */
  function AggDate(a: OrderAgg): Date { a.orderDate }

  /** `merged.groupby('order_date').agg(...)`: one row per date that occurs in
      the joined table, rows without a category included. */
  function OrderTable(rows: seq<Row>): (t: seq<OrderAgg>)
    ensures Column(t, AggDate) == OrderKeys(rows)
    ensures forall i :: 0 <= i < |t| ==>
      var g := Group(rows, DateKey, t[i].orderDate);
      t[i].totalItemsSold == |g| > 0
      && 1 <= t[i].totalOrders <= t[i].totalItemsSold
      && t[i].uniqueCustomers <= t[i].totalItemsSold
      && t[i].returnedItems <= t[i].totalItemsSold
    ensures forall i :: 0 <= i < |t| ==>
      var g := Group(rows, DateKey, t[i].orderDate);
      t[i].totalRevenue == Sum(g, Price) && t[i].totalOrders == |Image(g, RowOrderId)|
      && t[i].returnedItems == |Filter(g, Returned)| && t[i].uniqueCustomers == |PresentImage(g, Customer)|
  {
    var ds := OrderKeys(rows);
    var t := OrderRows(ds, rows);
    forall i | 0 <= i < |t| ensures |Group(rows, DateKey, ds[i])| > 0 {
      assert ds[i] in ds;
      var r :| r in rows && DateKey(r) == ds[i];
      assert r in Group(rows, DateKey, ds[i]);
    }
    t
  }

  /** The joined table of `run_transformation`. */
  function Merged(products: seq<Product>, orders: seq<Order>, items: seq<Item>): seq<Row>
  {
    Join(items, orders, CategoryMap(products))
  }

  // ---------------------------------------------------------------------
  // Ratios and the emitted rows

  /** Cents as currency units. */
  function Money(cents: int): real { cents as real / 100.0 }

  /** `avg_order_value = daily_revenue / order_count`, computed from the
      unrounded revenue. */
  function AvgOrderValue(a: CategoryAgg): (v: real)
    requires a.orderCount > 0
    ensures v * a.orderCount as real == Money(a.dailyRevenue)
    ensures a.dailyRevenue >= 0 ==> v >= 0.0
  {
    Money(a.dailyRevenue) / a.orderCount as real
  }

  /** `avg_return_rate = return_count / order_count`, before rounding and
      scaling. It is not bounded by 1: see `CategoryReturnRatioExceedsOne`. */
  function AvgReturnRatio(a: CategoryAgg): (v: real)
    requires a.orderCount > 0
    ensures v >= 0.0
    ensures v * a.orderCount as real == a.returnCount as real
  {
    a.returnCount as real / a.orderCount as real
  }

  /** `return_rate = mean(is_returned)`, before rounding and scaling: the
      share of the date's item rows whose order was returned. */
  function ReturnRatio(a: OrderAgg): (v: real)
    requires a.returnedItems <= a.totalItemsSold && a.totalItemsSold > 0
    ensures 0.0 <= v <= 1.0
    ensures 0.0 <= v * 100.0 <= 100.0
    ensures v * a.totalItemsSold as real == a.returnedItems as real
  {
    a.returnedItems as real / a.totalItemsSold as real
  }

  /** A rounding routine `round(x, places)`, left abstract. */
  type Rounding = (real, nat) -> real

  /** The rounding is the identity (used to state the exact relations). */
  ghost predicate Exact(round: Rounding)
  {
    forall x, n :: round(x, n) == x
  }

  /** Rounding keeps ratios in the unit interval, as any rounding to a whole
      number of places does. */
  ghost predicate KeepsUnitInterval(round: Rounding)
  {
    forall x, n :: 0.0 <= x <= 1.0 ==> 0.0 <= round(x, n) <= 1.0
  }

  /** A row of the category KPI table as written out. */
  datatype CategoryKpi = CategoryKpi(
    category: string, orderDate: Date,
    dailyRevenue: real, avgOrderValue: real, avgReturnRate: real)

  /** A row of the order KPI table as written out. */
  datatype OrderKpi = OrderKpi(
    orderDate: Date, totalOrders: nat, totalRevenue: real,
    totalItemsSold: nat, returnRate: real, uniqueCustomers: nat)

  /** Lines 115-121: the revenue and the average are rounded to 2 places, the
      ratio to 4 places and only then scaled to a percentage. */
  function EmitCategory(a: CategoryAgg, round: Rounding): (k: CategoryKpi)
    requires a.orderCount > 0
    ensures k.category == a.category && k.orderDate == a.orderDate
    ensures Exact(round) ==> k.dailyRevenue == Money(a.dailyRevenue)
    ensures Exact(round) ==> k.avgOrderValue * a.orderCount as real == k.dailyRevenue
    ensures Exact(round) ==> k.avgReturnRate * a.orderCount as real == 100.0 * a.returnCount as real
  {
    CategoryKpi(a.category, a.orderDate,
                round(Money(a.dailyRevenue), 2),
                round(AvgOrderValue(a), 2),
                round(AvgReturnRatio(a), 4) * 100.0)
  }

  /** Lines 135-137: the revenue is rounded to 2 places, the ratio to 4
      places and then scaled to a percentage. */
  function EmitOrder(a: OrderAgg, round: Rounding): (k: OrderKpi)
    requires a.returnedItems <= a.totalItemsSold && a.totalItemsSold > 0
    ensures k.orderDate == a.orderDate && k.totalOrders == a.totalOrders
    ensures k.totalItemsSold == a.totalItemsSold && k.uniqueCustomers == a.uniqueCustomers
    ensures KeepsUnitInterval(round) ==> 0.0 <= k.returnRate <= 100.0
    ensures Exact(round) ==> k.totalRevenue == Money(a.totalRevenue)
    ensures Exact(round) ==> k.returnRate * a.totalItemsSold as real == 100.0 * a.returnedItems as real
  {
    OrderKpi(a.orderDate, a.totalOrders, round(Money(a.totalRevenue), 2), a.totalItemsSold,
             round(ReturnRatio(a), 4) * 100.0, a.uniqueCustomers)
  }

  function KpiDate(k: OrderKpi): Date { k.orderDate }

  function KpiKey(k: CategoryKpi): (Option<string>, Date) { (Some(k.category), k.orderDate) }

  /** The category table as written out, row by row. */
  function EmitCategories(t: seq<CategoryAgg>, round: Rounding): (r: seq<CategoryKpi>)
    requires forall i :: 0 <= i < |t| ==> t[i].orderCount > 0
    ensures |r| == |t|
    ensures forall i :: 0 <= i < |t| ==> r[i] == EmitCategory(t[i], round)
    ensures Column(r, KpiKey) == Column(t, CategoryRowKey)
  {
    if t == [] then [] else [EmitCategory(t[0], round)] + EmitCategories(t[1..], round)
  }

  /** The order table as written out, row by row. */
  function EmitOrders(t: seq<OrderAgg>, round: Rounding): (r: seq<OrderKpi>)
    requires forall i :: 0 <= i < |t| ==> t[i].returnedItems <= t[i].totalItemsSold && t[i].totalItemsSold > 0
    ensures |r| == |t|
    ensures forall i :: 0 <= i < |t| ==> r[i] == EmitOrder(t[i], round)
  {
    if t == [] then [] else [EmitOrder(t[0], round)] + EmitOrders(t[1..], round)
  }

  /** The order KPI table as written out: one row per order date, holding
      that date's group of joined rows' counts, its revenue rounded to 2
      places and the returned share of its item rows, rounded to 4 places, as
      a percentage. */
  function OrderKpis(rows: seq<Row>, round: Rounding): (ord: seq<OrderKpi>)
    ensures Column(ord, KpiDate) == OrderKeys(rows)
    ensures forall i :: 0 <= i < |ord| ==>
      var g := Group(rows, DateKey, ord[i].orderDate);
      ord[i].totalItemsSold == |g| && 1 <= ord[i].totalOrders <= ord[i].totalItemsSold
      && ord[i].uniqueCustomers <= ord[i].totalItemsSold
    ensures forall i :: 0 <= i < |ord| ==>
      var g := Group(rows, DateKey, ord[i].orderDate);
      ord[i].totalOrders == |Image(g, RowOrderId)| && ord[i].uniqueCustomers == |PresentImage(g, Customer)|
      && ord[i].totalRevenue == round(Money(Sum(g, Price)), 2)
      && ord[i].returnRate == round(|Filter(g, Returned)| as real / |g| as real, 4) * 100.0
    ensures KeepsUnitInterval(round) ==> forall i :: 0 <= i < |ord| ==> 0.0 <= ord[i].returnRate <= 100.0
  {
    OrderKpisShape(rows, round);
    OrderKpisRateBound(rows, round);
    OrderKpisOfGroups(rows, round);
    EmitOrders(OrderTable(rows), round)
  }

  /** The category KPI table as written out: one row per category and date,
      holding that group's revenue rounded to 2 places, the revenue per
      distinct order rounded to 2 places, and the returned item rows per
      distinct order, rounded to 4 places, as a percentage. */
  function CategoryKpis(rows: seq<Row>, round: Rounding): (cat: seq<CategoryKpi>)
    ensures Column(cat, KpiKey) == CategoryKeys(rows)
    ensures forall i :: 0 <= i < |cat| ==>
      var g := Group(rows, CategoryKey, KpiKey(cat[i]));
      var orderCount := |Image(g, RowOrderId)| as real;
      cat[i].dailyRevenue == round(Money(Sum(g, Price)), 2)
      && cat[i].avgOrderValue == round(Money(Sum(g, Price)) / orderCount, 2)
      && cat[i].avgReturnRate == round(|Filter(g, Returned)| as real / orderCount, 4) * 100.0
  {
    CategoryKpisOfGroups(rows, round);
    EmitCategories(CategoryTable(rows), round)
  }

  /** `run_transformation(products, orders, order_items)`: the category and
      order KPI tables of the joined data. */
  function RunTransformation(products: seq<Product>, orders: seq<Order>, items: seq<Item>,
                             round: Rounding): (r: (seq<CategoryKpi>, seq<OrderKpi>))
    ensures Column(r.0, KpiKey) == CategoryKeys(Merged(products, orders, items))
    ensures Column(r.1, KpiDate) == OrderKeys(Merged(products, orders, items))
    ensures forall i :: 0 <= i < |r.1| ==>
      var g := Group(Merged(products, orders, items), DateKey, r.1[i].orderDate);
      r.1[i].totalItemsSold == |g| && 1 <= r.1[i].totalOrders <= r.1[i].totalItemsSold
      && r.1[i].uniqueCustomers <= r.1[i].totalItemsSold
    ensures forall i :: 0 <= i < |r.1| ==>
      var g := Group(Merged(products, orders, items), DateKey, r.1[i].orderDate);
      r.1[i].totalOrders == |Image(g, RowOrderId)| && r.1[i].uniqueCustomers == |PresentImage(g, Customer)|
      && r.1[i].totalRevenue == round(Money(Sum(g, Price)), 2)
      && r.1[i].returnRate == round(|Filter(g, Returned)| as real / |g| as real, 4) * 100.0
    ensures KeepsUnitInterval(round) ==> forall i :: 0 <= i < |r.1| ==> 0.0 <= r.1[i].returnRate <= 100.0
    ensures forall i :: 0 <= i < |r.0| ==>
      var g := Group(Merged(products, orders, items), CategoryKey, KpiKey(r.0[i]));
      var orderCount := |Image(g, RowOrderId)| as real;
      r.0[i].dailyRevenue == round(Money(Sum(g, Price)), 2)
      && r.0[i].avgOrderValue == round(Money(Sum(g, Price)) / orderCount, 2)
      && r.0[i].avgReturnRate == round(|Filter(g, Returned)| as real / orderCount, 4) * 100.0
  {
    var rows := Merged(products, orders, items);
    (CategoryKpis(rows, round), OrderKpis(rows, round))
  }

  /** The emitted order table has one row per order date; each row counts
      the item rows of its date's group and bounds its orders and customers
      by them. */
  lemma OrderKpisShape(rows: seq<Row>, round: Rounding)
    ensures Column(EmitOrders(OrderTable(rows), round), KpiDate) == OrderKeys(rows)
    ensures var ord := EmitOrders(OrderTable(rows), round);
      forall i :: 0 <= i < |ord| ==>
        var g := Group(rows, DateKey, ord[i].orderDate);
        ord[i].totalItemsSold == |g| && 1 <= ord[i].totalOrders <= ord[i].totalItemsSold
        && ord[i].uniqueCustomers <= ord[i].totalItemsSold
  {
    var ot := OrderTable(rows);
    var ord := EmitOrders(ot, round);
    assert Column(ord, KpiDate) == Column(ot, AggDate);
    forall i | 0 <= i < |ord|
      ensures var g := Group(rows, DateKey, ord[i].orderDate);
        ord[i].totalItemsSold == |g| && 1 <= ord[i].totalOrders <= ord[i].totalItemsSold
        && ord[i].uniqueCustomers <= ord[i].totalItemsSold
    {
      assert ord[i] == EmitOrder(ot[i], round);
    }
  }

  /** A rounding that keeps the unit interval keeps every emitted
      `return_rate` a percentage. */
  lemma OrderKpisRateBound(rows: seq<Row>, round: Rounding)
    ensures var ord := EmitOrders(OrderTable(rows), round);
      KeepsUnitInterval(round) ==> forall i :: 0 <= i < |ord| ==> 0.0 <= ord[i].returnRate <= 100.0
  {
    var ot := OrderTable(rows);
    var ord := EmitOrders(ot, round);
    if KeepsUnitInterval(round) {
      forall i | 0 <= i < |ord| ensures 0.0 <= ord[i].returnRate <= 100.0 {
        assert ord[i] == EmitOrder(ot[i], round);
      }
    }
  }

  /** Each emitted order row holds its date group's counts, its revenue
      rounded to 2 places and the returned share of its item rows, rounded to
      4 places, as a percentage. */
  lemma OrderKpisOfGroups(rows: seq<Row>, round: Rounding)
    ensures var ord := EmitOrders(OrderTable(rows), round);
      forall i :: 0 <= i < |ord| ==>
        var g := Group(rows, DateKey, ord[i].orderDate);
        ord[i].totalOrders == |Image(g, RowOrderId)| && ord[i].uniqueCustomers == |PresentImage(g, Customer)|
        && ord[i].totalRevenue == round(Money(Sum(g, Price)), 2)
        && ord[i].returnRate == round(|Filter(g, Returned)| as real / |g| as real, 4) * 100.0
  {
    forall i | 0 <= i < |EmitOrders(OrderTable(rows), round)| {
      OrderKpiOfGroup(rows, round, i);
    }
  }

  lemma OrderKpiOfGroup(rows: seq<Row>, round: Rounding, i: int)
    requires 0 <= i < |OrderTable(rows)|
    ensures var k := EmitOrders(OrderTable(rows), round)[i];
      var g := Group(rows, DateKey, k.orderDate);
      k.totalOrders == |Image(g, RowOrderId)| && k.uniqueCustomers == |PresentImage(g, Customer)|
      && k.totalRevenue == round(Money(Sum(g, Price)), 2)
      && k.returnRate == round(|Filter(g, Returned)| as real / |g| as real, 4) * 100.0
  {
    var a := OrderTable(rows)[i];
    assert EmitOrders(OrderTable(rows), round)[i] == EmitOrder(a, round);
  }

  /** Each emitted category row holds its group's revenue rounded to 2
      places, the revenue per distinct order rounded to 2 places, and the
      returned item rows per distinct order, rounded to 4 places, as a
      percentage. */
  lemma CategoryKpisOfGroups(rows: seq<Row>, round: Rounding)
    ensures var cat := EmitCategories(CategoryTable(rows), round);
      forall i :: 0 <= i < |cat| ==>
        var g := Group(rows, CategoryKey, KpiKey(cat[i]));
        var orderCount := |Image(g, RowOrderId)| as real;
        cat[i].dailyRevenue == round(Money(Sum(g, Price)), 2)
        && cat[i].avgOrderValue == round(Money(Sum(g, Price)) / orderCount, 2)
        && cat[i].avgReturnRate == round(|Filter(g, Returned)| as real / orderCount, 4) * 100.0
  {
    forall i | 0 <= i < |EmitCategories(CategoryTable(rows), round)| {
      CategoryKpiOfGroup(rows, round, i);
    }
  }

  lemma CategoryKpiOfGroup(rows: seq<Row>, round: Rounding, i: int)
    requires 0 <= i < |CategoryTable(rows)|
    ensures var k := EmitCategories(CategoryTable(rows), round)[i];
      var g := Group(rows, CategoryKey, KpiKey(k));
      var orderCount := |Image(g, RowOrderId)| as real;
      k.dailyRevenue == round(Money(Sum(g, Price)), 2)
      && k.avgOrderValue == round(Money(Sum(g, Price)) / orderCount, 2)
      && k.avgReturnRate == round(|Filter(g, Returned)| as real / orderCount, 4) * 100.0
  {
    var a := CategoryTable(rows)[i];
    var k := EmitCategories(CategoryTable(rows), round)[i];
    assert k == EmitCategory(a, round);
    assert KpiKey(k) == CategoryRowKey(a);
  }
}
