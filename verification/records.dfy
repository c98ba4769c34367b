/** The rows of the three input tables, before and after validation.

    Identifiers are integers, timestamps and dates are opaque strings, and
    `sale_price` is an integer number of cents. A missing CSV cell (NaN / NaT)
    is `None`. */
module Records {
  import opened Wrappers

  /** A calendar date (`order_date`, `return_date`), kept opaque. */
  type Date = string

  /** A row of `products.csv`: only the columns the pipeline reads. */
  datatype Product = Product(id: Option<int>, category: Option<string>)

  /** A raw row of a `raw-data/orders/` CSV export. */
  datatype RawOrder = RawOrder(
    orderId: Option<int>,
    userId: Option<int>,
    createdAt: Option<string>,
    returnedAt: Option<string>)

  /** A raw row of a `raw-data/order_items/` CSV export. The item side carries its own
      `user_id` column, which the join suffixes to `user_id_x`. */
  datatype RawItem = RawItem(
    id: Option<int>,
    orderId: Option<int>,
    userId: Option<int>,
    productId: Option<int>,
    salePrice: Option<int>)

  /** A validated order, with the dates derived from its timestamps. */
  datatype Order = Order(
    orderId: int,
    userId: int,
    createdAt: string,
    returnedAt: Option<string>,
    orderDate: Date,
    returnDate: Option<Date>)

  /** A validated order item. Its `order_id` is present because the
      referential filter drops items whose `order_id` is missing. */
  datatype Item = Item(
    id: int,
    orderId: int,
    userId: Option<int>,
    productId: int,
    salePrice: int)
}
