/** Properties of the KPI computation that relate several of its pieces:
    conservation of revenue and item counts across the order table, the
    category table against the order table per date, the treatment of items
    without an order, and worked examples. */
module Kpis {
  import opened Wrappers
  import opened Records
  import opened Seqs
  import opened Transformation

  function AggRevenue(a: OrderAgg): int { a.totalRevenue }

  function AggItems(a: OrderAgg): int { a.totalItemsSold }

  function CatRevenue(a: CategoryAgg): int { a.dailyRevenue }

  function One(r: Row): int { 1 }

  /** The category-table row belongs to date `d`. */
  function CatOnDate(d: Date): CategoryAgg -> bool
  {
    (a: CategoryAgg) => a.orderDate == d
  }

  /** The joined row's category key is one of `ks` and its date is `d`. */
  function KeyInOnDate(ks: seq<(Option<string>, Date)>, d: Date): Row -> bool
  {
    (r: Row) => CategoryKey(r) in ks && DateKey(r) == d
  }

  /** The joined row has a category and its date is `d`. */
  function CategorizedOnDate(d: Date): Row -> bool
  {
    (r: Row) => r.category.Some? && DateKey(r) == d
  }

  lemma {:induction false} OrderRowsRevenue(ds: seq<Date>, rows: seq<Row>)
    ensures Sum(OrderRows(ds, rows), AggRevenue) == GroupSum(ds, rows, DateKey, Price)
  {
    if ds != [] {
      OrderRowsRevenue(ds[1..], rows);
    }
  }

  lemma {:induction false} OrderRowsItems(ds: seq<Date>, rows: seq<Row>)
    ensures Sum(OrderRows(ds, rows), AggItems) == GroupSum(ds, rows, DateKey, One)
  {
    if ds != [] {
      OrderRowsItems(ds[1..], rows);
      SumOnes(Group(rows, DateKey, ds[0]), One);
    }
  }

  /** Summing `total_revenue` over the order table gives the total price of
      the joined rows, and summing `total_items_sold` gives their number:
      every joined row lands in exactly one date group. */
  lemma OrderTableConserves(rows: seq<Row>)
    ensures Sum(OrderTable(rows), AggRevenue) == Sum(rows, Price)
    ensures Sum(OrderTable(rows), AggItems) == |rows|
  {
    var ds := OrderKeys(rows);
    assert OrderTable(rows) == OrderRows(ds, rows);
    OrderRowsRevenue(ds, rows);
    OrderRowsItems(ds, rows);
    PartitionSum(ds, rows, DateKey, Price);
    PartitionSum(ds, rows, DateKey, One);
    assert forall r :: r in rows ==> DateKey(r) in ds;
    FilterAll(rows, KeyIn(DateKey, ds));
    SumOnes(rows, One);
  }

  /** On any duplicate-free list of category keys, the table rows of date `d`
      sum to the price of the joined rows whose key is listed and whose date
      is `d`. */
  lemma {:induction false} CategoryRowsOnDate(ks: seq<(Option<string>, Date)>, rows: seq<Row>, d: Date)
    requires forall i :: 0 <= i < |ks| ==> ks[i].0.Some?
    requires NoDups(ks)
    ensures Sum(Filter(CategoryRows(ks, rows), CatOnDate(d)), CatRevenue)
         == Sum(Filter(rows, KeyInOnDate(ks, d)), Price)
  {
    if ks == [] {
      FilterNone(rows, KeyInOnDate(ks, d));
    } else {
      var k0 := ks[0];
      var tail := ks[1..];
      assert NoDups(tail) by {
        forall i, j | 0 <= i < j < |tail| ensures tail[i] != tail[j] {
          assert tail[i] == ks[i + 1] && tail[j] == ks[j + 1];
        }
      }
      assert k0 !in tail by {
        forall j | 0 <= j < |tail| ensures tail[j] != k0 {
          assert tail[j] == ks[j + 1];
        }
      }
      assert forall k :: k in ks <==> k == k0 || k in tail by {
        assert ks == [k0] + tail;
      }
      CategoryRowsOnDate(tail, rows, d);
      var head := [AggregateCategory(k0.0.value, k0.1, Group(rows, CategoryKey, k0))];
      assert CategoryRows(ks, rows) == head + CategoryRows(tail, rows);
      FilterConcat(head, CategoryRows(tail, rows), CatOnDate(d));
      SumConcat(Filter(head, CatOnDate(d)), Filter(CategoryRows(tail, rows), CatOnDate(d)), CatRevenue);
      if k0.1 == d {
        SumSplit(rows, KeyInOnDate(ks, d), Is(CategoryKey, k0), KeyInOnDate(tail, d), Price);
      } else {
        FilterExt(rows, KeyInOnDate(ks, d), KeyInOnDate(tail, d));
      }
    }
  }

  /** Per date, the category rows' `daily_revenue` add up to at most the
      order row's `total_revenue` when prices are non-negative: the joined
      rows without a category count only in the latter. When every joined
      row has a category the two agree. */
  lemma CategoryRevenueWithinDay(rows: seq<Row>, i: int)
    requires 0 <= i < |OrderTable(rows)|
    requires forall r :: r in rows ==> Price(r) >= 0
    ensures Sum(Filter(CategoryTable(rows), CatOnDate(OrderTable(rows)[i].orderDate)), CatRevenue)
         <= OrderTable(rows)[i].totalRevenue
    ensures (forall r :: r in rows ==> r.category.Some?) ==>
      Sum(Filter(CategoryTable(rows), CatOnDate(OrderTable(rows)[i].orderDate)), CatRevenue)
      == OrderTable(rows)[i].totalRevenue
  {
    var ks := CategoryKeys(rows);
    var d := OrderTable(rows)[i].orderDate;
    assert OrderTable(rows)[i].totalRevenue == Sum(Group(rows, DateKey, d), Price);
    assert CategoryTable(rows) == CategoryRows(ks, rows);
    CategoryRowsOnDate(ks, rows, d);
    FilterExt(rows, KeyInOnDate(ks, d), CategorizedOnDate(d));
    SumFilterMono(rows, CategorizedOnDate(d), Is(DateKey, d), Price);
    if forall r :: r in rows ==> r.category.Some? {
      FilterExt(rows, CategorizedOnDate(d), Is(DateKey, d));
    }
  }

  // ---------------------------------------------------------------------
  // Items without an order

  lemma {:induction false} JoinConcat(a: seq<Item>, b: seq<Item>, orders: seq<Order>, m: map<int, Option<string>>)
    ensures Join(a + b, orders, m) == Join(a, orders, m) + Join(b, orders, m)
  {
    if a == [] {
      assert a + b == b;
    } else {
      assert (a + b)[0] == a[0];
      assert (a + b)[1..] == a[1..] + b;
      JoinConcat(a[1..], b, orders, m);
    }
  }

  /** The inner join silently drops an item whose `order_id` matches no
      order, so such an item changes neither KPI table. */
  lemma OrphanItemIgnored(products: seq<Product>, orders: seq<Order>, a: seq<Item>, i: Item, b: seq<Item>)
    requires forall o :: o in orders ==> o.orderId != i.orderId
    ensures Merged(products, orders, a + [i] + b) == Merged(products, orders, a + b)
    ensures CategoryTable(Merged(products, orders, a + [i] + b)) == CategoryTable(Merged(products, orders, a + b))
    ensures OrderTable(Merged(products, orders, a + [i] + b)) == OrderTable(Merged(products, orders, a + b))
  {
    var m := CategoryMap(products);
    JoinConcat(a + [i], b, orders, m);
    JoinConcat(a, [i], orders, m);
    JoinConcat(a, b, orders, m);
    assert Join([i], orders, m) == RowsOf(i, orders, m) + Join([], orders, m);
    assert RowsOf(i, orders, m) == [];
  }
}
