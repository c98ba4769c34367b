/** How the two jobs fit together: the transformation job reads what the
    validation job wrote, so every item it joins has a positive price and
    an order to join with. */
module Pipeline {
  import opened Wrappers
  import opened Records
  import opened Seqs
  import opened Validation
  import opened Transformation
  import opened Kpis

  function SalePrice(i: Item): int { i.salePrice }

  /** Every item's `order_id` occurs among the orders. */
  predicate AllReferenced(items: seq<Item>, orders: seq<Order>)
  {
    forall k :: 0 <= k < |items| ==> items[k].orderId in Image(orders, OrderIdOf)
  }

  lemma AllReferencedTail(items: seq<Item>, orders: seq<Order>)
    requires items != [] && AllReferenced(items, orders)
    ensures AllReferenced(items[1..], orders)
  {
    forall k | 0 <= k < |items[1..]| ensures items[1..][k].orderId in Image(orders, OrderIdOf) {
      assert items[1..][k] == items[k + 1];
    }
  }

  /** An item whose order exists yields at least one joined row. */
  lemma RowsOfReferenced(i: Item, orders: seq<Order>, m: map<int, Option<string>>)
    requires i.orderId in Image(orders, OrderIdOf)
    ensures |RowsOf(i, orders, m)| >= 1
  {
    var j :| 0 <= j < |orders| && OrderIdOf(orders[j]) == i.orderId;
    assert Row(i, orders[j], CategoryOf(m, i.productId)) in RowsOf(i, orders, m);
  }

  /** The inner join drops no item whose order exists; it can add rows when
      order ids repeat. */
  lemma {:induction false} JoinCoversItems(items: seq<Item>, orders: seq<Order>, m: map<int, Option<string>>)
    requires AllReferenced(items, orders)
    ensures |Join(items, orders, m)| >= |items|
  {
    if items != [] {
      AllReferencedTail(items, orders);
      JoinCoversItems(items[1..], orders, m);
      RowsOfReferenced(items[0], orders, m);
    }
  }

  /** Order ids are unique in `orders`. */
  predicate UniqueOrderIds(orders: seq<Order>)
  {
    NoDups(Column(orders, OrderIdOf))
  }

  /** With unique order ids at most one order matches. */
  lemma {:induction false} MatchingOrderUnique(orders: seq<Order>, id: int)
    requires UniqueOrderIds(orders)
    ensures |Filter(orders, MatchesOrder(id))| <= 1
  {
    if orders != [] {
      var ids := Column(orders, OrderIdOf);
      assert UniqueOrderIds(orders[1..]) by {
        var tail := Column(orders[1..], OrderIdOf);
        forall a, b | 0 <= a < b < |tail| ensures tail[a] != tail[b] {
          assert tail[a] == ids[a + 1] && tail[b] == ids[b + 1];
        }
      }
      MatchingOrderUnique(orders[1..], id);
      if orders[0].orderId == id {
        forall o | o in orders[1..] ensures !MatchesOrder(id)(o) {
          var b :| 0 <= b < |orders[1..]| && orders[1..][b] == o;
          assert ids[b + 1] == o.orderId;
          assert ids[0] == id;
        }
        FilterNone(orders[1..], MatchesOrder(id));
      }
    }
  }

  /** With unique order ids a referenced item yields exactly one row, which
      carries the item's price. */
  lemma RowsOfUnique(i: Item, orders: seq<Order>, m: map<int, Option<string>>)
    requires UniqueOrderIds(orders) && i.orderId in Image(orders, OrderIdOf)
    ensures |RowsOf(i, orders, m)| == 1
    ensures Sum(RowsOf(i, orders, m), Price) == i.salePrice
  {
    RowsOfReferenced(i, orders, m);
    MatchingOrderUnique(orders, i.orderId);
    var rs := RowsOf(i, orders, m);
    assert |rs| == |Filter(orders, MatchesOrder(i.orderId))|;
    assert rs[0] in rs;
    assert rs[1..] == [];
  }

  /** With unique order ids the join is one row per item and carries the
      items' total price. */
  lemma {:induction false} JoinOnUniqueOrders(items: seq<Item>, orders: seq<Order>, m: map<int, Option<string>>)
    requires UniqueOrderIds(orders) && AllReferenced(items, orders)
    ensures |Join(items, orders, m)| == |items|
    ensures Sum(Join(items, orders, m), Price) == Sum(items, SalePrice)
  {
    if items != [] {
      AllReferencedTail(items, orders);
      JoinOnUniqueOrders(items[1..], orders, m);
      RowsOfUnique(items[0], orders, m);
      SumConcat(RowsOf(items[0], orders, m), Join(items[1..], orders, m), Price);
    }
  }

  /** Validated tables feed the transformation: every joined row has a
      positive price, no item is lost in the join, and with unique order ids
      the order table's revenue and item totals are exactly those of the
      validated items. */
  lemma ValidatedTablesJoin(products: seq<Product>, orders: seq<RawOrder>, items: seq<RawItem>,
                            parse: string -> Option<Date>)
    requires RunValidation(products, orders, items, parse).Ok?
    ensures var v := RunValidation(products, orders, items, parse).value;
            var merged := Merged(v.products, v.orders, v.items);
            (forall r :: r in merged ==> Price(r) > 0)
            && |merged| >= |v.items|
            && (UniqueOrderIds(v.orders) ==>
                  Sum(OrderTable(merged), AggRevenue) == Sum(v.items, SalePrice)
                  && Sum(OrderTable(merged), AggItems) == |v.items|)
  {
    var v := RunValidation(products, orders, items, parse).value;
    var merged := Merged(v.products, v.orders, v.items);
    assert AllReferenced(v.items, v.orders);
    JoinCoversItems(v.items, v.orders, CategoryMap(v.products));
    forall r | r in merged ensures Price(r) > 0 {
      var k :| 0 <= k < |v.items| && v.items[k] == r.item;
    }
    OrderTableConserves(merged);
    if UniqueOrderIds(v.orders) {
      JoinOnUniqueOrders(v.items, v.orders, CategoryMap(v.products));
    }
  }

  /** Validation does not deduplicate orders: an order id listed twice
      makes its item appear twice in the join, doubling its revenue. */
  lemma RepeatedOrderIdDoublesItem(i: Item, o: Order, m: map<int, Option<string>>)
    requires o.orderId == i.orderId
    ensures Join([i], [o, o], m) == [Row(i, o, CategoryOf(m, i.productId)), Row(i, o, CategoryOf(m, i.productId))]
    ensures Sum(Join([i], [o, o], m), Price) == 2 * i.salePrice
  {
    assert [o, o][1..] == [o];
    assert Filter([o, o], MatchesOrder(i.orderId)) == [o, o];
    var r := Row(i, o, CategoryOf(m, i.productId));
    assert RowsOf(i, [o, o], m) == [r, r];
    assert [i][1..] == [];
    assert [r, r][1..] == [r];
    assert Join([i], [o, o], m) == [r, r];
    assert Sum([r], Price) == i.salePrice;
  }
}
