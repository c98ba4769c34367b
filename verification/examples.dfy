/** Worked examples of the KPI computation on small concrete tables. */
module WorkedExamples {
  import opened Wrappers
  import opened Records
  import opened Seqs
  import opened Transformation

  const Day: Date := "2024-01-01"

  /** Two orders of user 9 on the same day; the second was returned. */
  const Kept := Order(1, 9, "2024-01-01", None, Day, None)
  const Back := Order(2, 9, "2024-01-01", Some("2024-01-03"), Day, Some("2024-01-03"))

  /** One item per order, both of product 100 in category "A": 10.00 and 30.00. */
  const Cheap := Item(1, 1, Some(9), 100, 1000)
  const Dear := Item(2, 2, Some(9), 100, 3000)

  const Catalogue := [Product(Some(100), Some("A"))]

  /** Facts about the two joined rows of the example that both tables use. */
  lemma ExampleGroup(r1: Row, r2: Row)
    requires r1.item.orderId == 1 && r2.item.orderId == 2
    requires r1.item.salePrice == 1000 && r2.item.salePrice == 3000
    requires r1.item.userId == Some(9) && r2.item.userId == Some(9)
    requires r1.order.returnedAt.None? && r2.order.returnedAt.Some?
    ensures |Image([r1, r2], RowOrderId)| == 2
    ensures Filter([r1, r2], Returned) == [r2]
    ensures Sum([r1, r2], Price) == 4000
    ensures |PresentImage([r1, r2], Customer)| == 1
  {
    var rows := [r1, r2];
    assert rows[1..] == [r2];
    assert [r2][1..] == [];
    assert Image([r2], RowOrderId) == {2};
    assert Image(rows, RowOrderId) == {1, 2};
    assert Filter([r2], Returned) == [r2];
    assert Sum([r2], Price) == 3000;
    assert PresentImage([r2], Customer) == {9};
    assert PresentImage(rows, Customer) == {9};
  }

  /** Each item joins its own order and picks up category "A". */
  lemma ExampleJoin()
    ensures Merged(Catalogue, [Kept, Back], [Cheap, Dear])
         == [Row(Cheap, Kept, Some("A")), Row(Dear, Back, Some("A"))]
  {
    var m := CategoryMap(Catalogue);
    assert CategoryOf(m, 100) == Some("A");
    assert [Kept, Back][1..] == [Back];
    assert Filter([Kept, Back], MatchesOrder(1)) == [Kept];
    assert Filter([Kept, Back], MatchesOrder(2)) == [Back];
    assert RowsOf(Cheap, [Kept, Back], m) == [Row(Cheap, Kept, Some("A"))];
    assert RowsOf(Dear, [Kept, Back], m) == [Row(Dear, Back, Some("A"))];
    assert [Cheap, Dear][1..] == [Dear];
    assert Join([Dear], [Kept, Back], m) == [Row(Dear, Back, Some("A"))];
  }

  /** One category row: revenue 40.00 over 2 orders, 1 returned item row. */
  lemma ExampleCategoryTable()
    ensures CategoryTable([Row(Cheap, Kept, Some("A")), Row(Dear, Back, Some("A"))])
         == [CategoryAgg("A", Day, 4000, 2, 1)]
  {
    var r1 := Row(Cheap, Kept, Some("A"));
    var r2 := Row(Dear, Back, Some("A"));
    var rows := [r1, r2];
    var k := (Some("A"), Day);
    assert CategoryKeys(rows) == [k] by {
      assert Column(rows, CategoryKey) == [k, k];
      assert [k][..0] == [];
      assert Distinct([k]) == [k];
      assert [k, k][..1] == [k];
    }
    assert Group(rows, CategoryKey, k) == rows by {
      FilterAll(rows, Is(CategoryKey, k));
    }
    assert AggregateCategory("A", Day, rows) == CategoryAgg("A", Day, 4000, 2, 1) by {
      ExampleGroup(r1, r2);
    }
    assert CategoryRows([k], rows) == [AggregateCategory("A", Day, rows)];
  }

  /** One order row: 2 orders, revenue 40.00, 2 items, 1 returned, 1 customer. */
  lemma ExampleOrderTable()
    ensures OrderTable([Row(Cheap, Kept, Some("A")), Row(Dear, Back, Some("A"))])
         == [OrderAgg(Day, 2, 4000, 2, 1, 1)]
  {
    var r1 := Row(Cheap, Kept, Some("A"));
    var r2 := Row(Dear, Back, Some("A"));
    var rows := [r1, r2];
    assert OrderKeys(rows) == [Day] by {
      assert Column(rows, DateKey) == [Day, Day];
      assert [Day][..0] == [];
      assert Distinct([Day]) == [Day];
      assert [Day, Day][..1] == [Day];
    }
    assert Group(rows, DateKey, Day) == rows by {
      FilterAll(rows, Is(DateKey, Day));
    }
    assert AggregateOrder(Day, rows) == OrderAgg(Day, 2, 4000, 2, 1, 1) by {
      ExampleGroup(r1, r2);
    }
    assert OrderRows([Day], rows) == [AggregateOrder(Day, rows)];
  }

  /** The example end to end: daily revenue 40.00, average order value 20.00,
      return rate 50 % in both tables, 2 orders, 2 items, 1 customer. */
  lemma ExampleKpis()
    ensures CategoryTable(Merged(Catalogue, [Kept, Back], [Cheap, Dear])) == [CategoryAgg("A", Day, 4000, 2, 1)]
    ensures OrderTable(Merged(Catalogue, [Kept, Back], [Cheap, Dear])) == [OrderAgg(Day, 2, 4000, 2, 1, 1)]
    ensures AvgOrderValue(CategoryAgg("A", Day, 4000, 2, 1)) == 20.0
    ensures AvgReturnRatio(CategoryAgg("A", Day, 4000, 2, 1)) * 100.0 == 50.0
    ensures ReturnRatio(OrderAgg(Day, 2, 4000, 2, 1, 1)) * 100.0 == 50.0
  {
    ExampleJoin();
    ExampleCategoryTable();
    ExampleOrderTable();
  }

  /** The category return ratio counts returned item rows against distinct
      orders, so one returned order with two items in the category gives a
      ratio of 2 (an `avg_return_rate` of 200). */
  lemma CategoryReturnRatioExceedsOne()
    ensures CategoryTable([Row(Item(1, 2, Some(9), 100, 1000), Back, Some("A")),
                           Row(Item(2, 2, Some(9), 101, 3000), Back, Some("A"))])
         == [CategoryAgg("A", Day, 4000, 1, 2)]
    ensures AvgReturnRatio(CategoryAgg("A", Day, 4000, 1, 2)) == 2.0
  {
    var r1 := Row(Item(1, 2, Some(9), 100, 1000), Back, Some("A"));
    var r2 := Row(Item(2, 2, Some(9), 101, 3000), Back, Some("A"));
    var rows := [r1, r2];
    var k := (Some("A"), Day);
    assert CategoryKeys(rows) == [k] by {
      assert Column(rows, CategoryKey) == [k, k];
      assert [k][..0] == [];
      assert Distinct([k]) == [k];
      assert [k, k][..1] == [k];
    }
    assert Group(rows, CategoryKey, k) == rows by {
      FilterAll(rows, Is(CategoryKey, k));
    }
    assert AggregateCategory("A", Day, rows) == CategoryAgg("A", Day, 4000, 1, 2) by {
      assert rows[1..] == [r2];
      assert Image([r2], RowOrderId) == {2};
      assert Image(rows, RowOrderId) == {2};
      assert Sum([r2], Price) == 3000;
      FilterAll(rows, Returned);
    }
    assert CategoryRows([k], rows) == [AggregateCategory("A", Day, rows)];
  }
}
