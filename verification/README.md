# E-commerce event-driven pipeline: a Dafny model of its core logic

The pipeline has three stages around an S3 bucket.

- **Trigger** (`lambda_trigger.py`): on every upload it decides whether all raw inputs are present. If they are, it writes the sentinel `status/execution_started.txt` and starts the state machine. Otherwise it reports what is still missing.
- **Validation job** (`Task_1/task_1.py`): it checks that `raw-data/products.csv` and the `raw-data/orders/` and `raw-data/order_items/` folders exist. It then cleans the orders and order items: null-dropping, a positive-price filter, a referential filter and date columns.
- **Transformation job** (`Task_2/task_2.py`): it joins the validated items to their orders and products. It computes a category-level and an order-level KPI table, then moves the raw inputs under `archive/<timestamp>/`.

The model covers the decision logic of all three stages as pure functions over immutable data.

- **Tables.** Tables are `seq`s of row datatypes (`Records`). Optional columns are `Option`.
- **Money and ratios.** Prices are integer cents. Ratios are `real`.
- **The bucket.** The bucket is the set of its keys. A listing is the bucket's keys in listing order.
- **Group-bys.** A group-by is a filter per distinct key (`Seqs.Group`).
- **Inputs.** Three things become parameters:
  - the rounding routine (`Transformation.Rounding`);
  - timestamp parsing (`parse`);
  - the outcome of the two AWS calls the trigger branches on (`Trigger.Env`).

The modules:

- `Wrappers`: `Option` and `Result`.
- `Seqs`: row filters, column sums, distinct-value sets, and group selection, with their algebra.
- `Strings`: `startswith`, `endswith`, `replace('//', '/')` and `split('/', 1)[1]`.
- `Records`: the raw and the validated row types.
- `Readiness`: `s3_files_exist` and `check_required_files`.
- `Validation`: `run_validation`.
- `Transformation`: `run_transformation`.
- `Kpis`: the conservation laws of the two KPI tables.
- `WorkedExamples`: small concrete runs of the KPI computation.
- `Archive`: `archive_data` and the `all_files` list.
- `Trigger`: `lambda_handler`, and runs of it over a sequence of bucket events.
- `Pipeline`: how the validated tables feed the transformation.

A few behaviours of the code are easy to misread; the model follows the code:

- **`unique_customers`.** It counts `user_id_x`, which is the order-items side of the merge (Task_2/task_2.py:131). The order's own `user_id` is not consulted.
- **Rows without a category.** They drop out of the category table, because pandas' `groupby` defaults to `dropna=True` (Task_2/task_2.py:107). They still count in the order table.
- **Unparseable timestamps.** An unparseable `created_at` or `returned_at` makes `pd.to_datetime` raise (Task_1/task_1.py:135-136). The model returns an error for it.
- **Readiness tests.** The trigger and the validation job do not test readiness the same way:
  - the trigger wants the exact key `raw-data/products.csv`, while the validation job accepts any key with that prefix;
  - the trigger wants a non-marker key in each folder, while the validation job accepts any key under it.

  `Trigger.ReadyImpliesRequiredFiles` and `Trigger.FolderMarkerPassesCheckOnly` relate the two.

## Model

| member | source | states |
|---|---|---|
| Strings.CollapseDoubleSlash | Task_1/task_1.py:43 | `replace('//', '/')` shortens the prefix exactly when it contains `"//"` and leaves it unchanged otherwise |
| Strings.AfterFirstSlash | Task_2/task_2.py:252 | `split('/', 1)[1]` is absent (IndexError) exactly when the key has no `'/'`, and otherwise shorter than the key |
| Strings.AfterFirstSlashJoin | Task_2/task_2.py:252 | splitting `segment + "/" + rest` at the first slash gives back `rest` whenever `segment` is slash-free |
| Strings.AfterFirstSlashSplits | Task_2/task_2.py:252 | conversely every key with a slash is the join of its slash-free first segment, `'/'` and the split-off rest |
| Readiness.FilesExist | Task_1/task_1.py:34-45 | a prefix has files exactly when some key of the bucket starts with the prefix after `'//'` is collapsed to `'/'` |
| Readiness.Missing | Task_1/task_1.py:52-58 | `missing` has at most three entries, contains an input exactly when listing its path finds nothing, and keeps the order products.csv, orders/, order_items/ |
| Readiness.CheckRequiredFiles | Task_1/task_1.py:47-61 | raises exactly when one of the three listings is empty, with the message joining the names of the non-empty `missing` list |
| Readiness.CheckRequiredFilesPasses | Task_1/task_1.py:53-61 | it passes exactly when `raw-data/products.csv`, `raw-data/orders/` and `raw-data/order_items/` each list at least one key |
| Readiness.RequiredPathsAreCollapsed | Task_1/task_1.py:29-31 | the three required paths contain no `"//"`, so the collapse leaves them unchanged |
| Readiness.ProductCheckIsPrefixTest | Task_1/task_1.py:43-54 | the products check is a prefix listing: a bucket holding only `raw-data/products.csv` followed by any non-empty suffix (`.bak`, say) passes it although `raw-data/products.csv` is absent |
| Readiness.EmptyBucketMissesAll | Task_1/task_1.py:52-61 | an empty bucket reports all three inputs, in order |
| Validation.CleanOrders | Task_1/task_1.py:125 | an order survives exactly when it was in the input and has `order_id`, `user_id` and `created_at` |
| Validation.CleanItems | Task_1/task_1.py:126-131 | an item survives exactly when it has `id`, `product_id` and `sale_price`, its price is positive, and its `order_id` is among the given orders' ids |
| Validation.CleanTables | Task_1/task_1.py:124-131 | every cleaned order is complete; every cleaned item is complete, positively priced, and references a *cleaned* order |
| Validation.CleanOrdersKeepsOrder | Task_1/task_1.py:125 | cleaning is row-wise: cleaning a concatenation concatenates the cleanings, and a single row is kept iff complete (so relative order is kept) |
| Validation.CleanItemsKeepsOrder | Task_1/task_1.py:126-131 | item cleaning distributes over concatenation, and a single item survives exactly once when it is complete, positively priced and references a cleaned order, so surviving items keep their multiplicity and relative order |
| Validation.CleanTablesIdempotent | Task_1/task_1.py:124-131 | cleaning the cleaned tables changes nothing |
| Validation.ReferenceToDroppedOrderIsDropped | Task_1/task_1.py:125-131 | an item whose order is dropped for a missing `user_id` is dropped too, because the id set is taken after cleaning |
| Validation.AddDates | Task_1/task_1.py:133-136 | fails with the `created_at` error iff some `created_at` does not parse; fails with the `returned_at` error iff all `created_at` parse but some present `returned_at` does not; otherwise keeps every row in place and carries its fields, with `return_date` present iff `returned_at` is |
| Validation.DatedIdsMatch | Task_1/task_1.py:130-136 | adding the date columns keeps every cleaned order id |
| Validation.ToItems | Task_1/task_1.py:126-131 | the validated items correspond one for one, field by field, to the cleaned item rows |
| Validation.RunValidation | Task_1/task_1.py:106-141 | products pass through unchanged; orders and items correspond one for one to the cleaned rows; every item has a positive price and references an output order; it fails iff some cleaned order's timestamp does not parse |
| Transformation.CategoryMap | Task_2/task_2.py:88 | a product id is a key iff some product row has it; the value is the category of the last row with that id |
| Transformation.CategoryOf | Task_2/task_2.py:97 | `.map(product_map)` gives the mapped category, and a missing category for an id the map lacks |
| Transformation.CategoryOfProducts | Task_2/task_2.py:88-97 | the category attached to an item is that of the last product row with its `product_id`, and missing when no product row has that id |
| Transformation.RowsOf | Task_2/task_2.py:94-97 | an item contributes one joined row per order row with its `order_id` (duplicates included), in the orders' order, each carrying the item's category; none if no order matches |
| Transformation.Join | Task_2/task_2.py:94-97 | the inner merge holds exactly the (item, order) pairs with equal `order_id`, each with its product's category |
| Transformation.AggregateCategory | Task_2/task_2.py:106-112 | a non-empty group has between 1 and its row count distinct orders; `return_count` is the number of its returned item rows |
| Transformation.AggregateOrder | Task_2/task_2.py:124-132 | `total_items_sold` is the group's row count; `total_orders` is between 1 and that; unique customers and returned rows are at most that |
| Transformation.CategoryKeys | Task_2/task_2.py:107 | the category groups are the distinct `(category, order_date)` pairs of the joined rows whose category is present |
| Transformation.OrderKeys | Task_2/task_2.py:125 | the date groups are the distinct order dates of the joined rows |
| Transformation.CategoryRows | Task_2/task_2.py:106-113 | one aggregate per key, computed from exactly that key's group |
| Transformation.OrderRows | Task_2/task_2.py:124-133 | one aggregate per date, computed from exactly that date's group |
| Transformation.CategoryTable | Task_2/task_2.py:106-114 | the table's keys are exactly the category groups; every group is non-empty, so `order_count >= 1` and both divisions are defined; each row's `daily_revenue`, `order_count` and `return_count` are its group's price sum, distinct order ids and returned rows |
| Transformation.OrderTable | Task_2/task_2.py:124-134 | the table's keys are exactly the order dates; per date `total_items_sold` is the group's size (non-zero), `1 <= total_orders <= total_items_sold`, and `total_revenue`, `total_orders`, returned rows and `unique_customers` are the group's price sum, distinct order ids, returned rows and distinct present `user_id_x` |
| Transformation.AvgOrderValue | Task_2/task_2.py:115 | the average times `order_count` is the group's unrounded revenue, and it is non-negative for non-negative revenue |
| Transformation.AvgReturnRatio | Task_2/task_2.py:116 | the ratio times `order_count` is `return_count`; it is non-negative |
| Transformation.ReturnRatio | Task_2/task_2.py:130 | the mean of `is_returned` lies in [0, 1], its percentage in [0, 100], and times the row count gives the returned rows |
| Transformation.EmitCategory | Task_2/task_2.py:115-121 | keeps the key; with exact rounding `daily_revenue` is the aggregate's, `avg_order_value * order_count = daily_revenue` and `avg_return_rate * order_count = 100 * return_count` |
| Transformation.EmitOrder | Task_2/task_2.py:135-137 | keeps the key and counts; `return_rate` stays in [0, 100] under any rounding that keeps [0, 1]; with exact rounding revenue and rate are the aggregates' |
| Transformation.EmitCategories | Task_2/task_2.py:115-121 | one emitted row per table row, each the rounded form of its aggregate, keeping the table's keys in order |
| Transformation.EmitOrders | Task_2/task_2.py:135-137 | the emitted order rows are the table's rows, each emitted |
| Transformation.OrderKpis | Task_2/task_2.py:124-137 | one written row per order date; per date the counts are the group's, `total_revenue` is the group's price sum rounded to 2 places, and `return_rate` is the returned share of its item rows rounded to 4 places times 100, within [0, 100] for any rounding that keeps [0, 1] |
| Transformation.CategoryKpis | Task_2/task_2.py:106-121 | one written row per category and date; `daily_revenue` is the group's price sum rounded to 2 places, `avg_order_value` that sum over the group's distinct orders rounded to 2 places, and `avg_return_rate` its returned rows over its distinct orders rounded to 4 places times 100 |
| Transformation.RunTransformation | Task_2/task_2.py:57-139 | the category KPIs are keyed by the category groups and the order KPIs by the dates of the join; every written value is the rounded aggregate of its own group of joined rows, as for `OrderKpis` and `CategoryKpis`, and `return_rate` lies in [0, 100] |
| Kpis.OrderTableConserves | Task_2/task_2.py:124-129 | over the whole order table, `total_revenue` sums to the joined rows' total price and `total_items_sold` to the joined row count |
| Kpis.CategoryRowsOnDate | Task_2/task_2.py:106-110 | the category revenues of one date sum to the price of that date's categorized rows |
| Kpis.CategoryRevenueWithinDay | Task_2/task_2.py:106-128 | with non-negative prices, a date's category revenues sum to at most its `total_revenue`, with equality when every row has a category |
| Kpis.JoinConcat | Task_2/task_2.py:94 | the merge is item-wise: merging a concatenation of item tables concatenates the merges |
| Kpis.OrphanItemIgnored | Task_2/task_2.py:94-134 | an item with no matching order changes neither the join nor either KPI table |
| WorkedExamples.ExampleJoin | Task_2/task_2.py:88-97 | two items of product 100 in category "A" join their own orders |
| WorkedExamples.ExampleCategoryTable | Task_2/task_2.py:106-114 | items of 10.00 and 30.00 in two orders, one returned, give one category row: revenue 40.00, 2 orders, 1 returned row |
| WorkedExamples.ExampleOrderTable | Task_2/task_2.py:124-134 | the same rows give one date row: 2 orders, 40.00, 2 items, 1 returned, 1 customer |
| WorkedExamples.ExampleKpis | Task_2/task_2.py:106-137 | end to end: average order value 20.00 and return rates of 50 % in both tables |
| WorkedExamples.CategoryReturnRatioExceedsOne | Task_2/task_2.py:111-116 | one returned order with two items in a category gives `return_count` 2 over `order_count` 1, a ratio of 2 |
| Archive.ArchiveKey | Task_2/task_2.py:252 | the archive key fails exactly for keys without `'/'` and otherwise starts with `archive/<ts>/` |
| Archive.ArchiveKeyDropsSegment | Task_2/task_2.py:252 | the key's first path segment is replaced by `archive/<ts>` and the rest kept |
| Archive.RawFileArchiveKey | Task_2/task_2.py:252 | `raw-data/<path>` is archived to `archive/<ts>/<path>` |
| Archive.RawArchiveKeyInjective | Task_2/task_2.py:252 | two raw files never share an archive key |
| Archive.ArchiveKeysCanCollide | Task_2/task_2.py:252 | keys from different top-level folders with the same rest do share one |
| Archive.ArchiveKeyIsNotRaw | Task_2/task_2.py:252-256 | an archive key is never a raw file's key |
| Archive.CsvUnder | Task_2/task_2.py:262-263 | a key is listed iff it is in the listing, under the prefix, and ends in `.csv`; a duplicate-free listing gives a duplicate-free result |
| Archive.ArchiveFileList | Task_2/task_2.py:261-263 | `all_files` starts with `raw-data/products.csv`; the rest are exactly the `.csv` keys of the listing under the orders or order-items folder |
| Archive.ArchiveFileListLayout | Task_2/task_2.py:261-263 | after the product file come the orders files, then the order-items files |
| Archive.ArchiveFileListIsRaw | Task_2/task_2.py:261-263 | every listed file lies under `raw-data/` |
| Archive.ArchiveFileListOrdered | Task_2/task_2.py:261-263 | every orders file precedes every order-items file |
| Archive.ArchiveFileListNoDups | Task_2/task_2.py:261-263 | a duplicate-free listing gives a duplicate-free file list |
| Archive.ArchiveData | Task_2/task_2.py:250-256 | a failure names a listed key; success means every key had a slash; keys neither listed nor archive targets are untouched |
| Archive.ArchiveMovesAll | Task_2/task_2.py:250-256 | archiving distinct present raw files succeeds, removes every original and leaves every archive copy |
| Archive.ArchiveFileListMovesAll | Task_2/task_2.py:250-263 | archiving `all_files` from a duplicate-free listing moves every listed file when the product file exists |
| Trigger.HasProducts | lambda_trigger.py:44-49 | `has_products` holds exactly when the key `raw-data/products.csv` itself is present |
| Trigger.HasFileUnder | lambda_trigger.py:51-61 | `has_orders` / `has_order_items` hold exactly when some key under the folder does not end in `'/'` |
| Trigger.Ready | lambda_trigger.py:64-65 | the handler proceeds exactly when all three flags hold |
| Trigger.Handle | lambda_trigger.py:28-93 | with the sentinel present: "Already triggered", no write, no start; Waiting iff an input is missing, with the three flags and the bucket unchanged; starts iff ready and both calls succeed, the sentinel written by then; errors iff ready and a call fails, the sentinel kept iff its write succeeded |
| Trigger.StartsAtMostOnce | lambda_trigger.py:32-79 | over any run of uploads, deletions and invocations that never deletes the sentinel, at most one execution starts, none if the sentinel was there first |
| Trigger.DeletingSentinelAllowsSecondStart | lambda_trigger.py:32-79 | deleting the sentinel re-arms the trigger: a ready bucket then starts twice |
| Trigger.FailedStartBlocksRetries | lambda_trigger.py:65-85 | a start that fails after the sentinel write reports the error and every later call reports "Already triggered" |
| Trigger.FailedWriteAllowsRetry | lambda_trigger.py:65-85 | a failed sentinel write leaves the bucket unchanged, so a later call can still start |
| Trigger.ReadyImpliesRequiredFiles | lambda_trigger.py:44-61 | when the handler is ready, `check_required_files` passes |
| Trigger.MarkerIsNotAFile | lambda_trigger.py:51-55 | a folder marker alone does not make `has_orders` true |
| Trigger.FolderMarkerPassesCheckOnly | lambda_trigger.py:51-61 | a bucket whose orders folder holds only its marker passes `check_required_files` while the handler is not ready |
| Trigger.FolderMarkerBucket | lambda_trigger.py:44-61 | such a bucket exists: the product file, the orders marker and one order-items file |
| Pipeline.RowsOfReferenced | Task_2/task_2.py:94 | an item whose order exists yields at least one joined row |
| Pipeline.JoinCoversItems | Task_2/task_2.py:94 | when every item's order exists, the join has at least as many rows as items |
| Pipeline.MatchingOrderUnique | Task_2/task_2.py:94 | with unique order ids at most one order matches an id |
| Pipeline.RowsOfUnique | Task_2/task_2.py:94 | with unique order ids a referenced item yields exactly one row, carrying its price |
| Pipeline.JoinOnUniqueOrders | Task_2/task_2.py:94 | with unique order ids and all items referenced, the join has one row per item and the items' total price |
| Pipeline.ValidatedTablesJoin | Task_2/task_2.py:94-129 | on validated tables every joined row has a positive price and no item is lost; with unique order ids the order table's revenue and item totals equal the validated items' |
| Pipeline.RepeatedOrderIdDoublesItem | Task_2/task_2.py:94 | an order id listed twice makes its item appear twice in the join, doubling its revenue |

## Left out

- S3, DynamoDB and Step Functions calls are I/O. This covers `read_csv_s3`, `read_all_csvs`, `save_to_s3`, `write_to_s3`, `write_to_dynamodb` with its `Decimal` serialisation, and `copy_object`/`delete_object` beyond their effect on the key set. The model works on the tables and the key set these calls read or change.
- Trigger.Handle: `head_object` failing for a reason other than absence, such as access denied, is treated by the source like absence. The model only knows present or absent keys.
- Trigger.HasFileUnder: `list_objects_v2` returns at most 1000 keys. The model lists all keys under the prefix.
- Archive.ArchiveFileList: the 1000-key cap of `list_objects_v2` and S3's key ordering are not modelled. The listing is given in order as an input.
- Archive.ArchiveData: the per-key print after each delete (Task_2/task_2.py:258) is output only and is not modelled.
- Transformation.EmitCategory: the rounding `.round(2)` / `.round(4)` and Python's `round(x, 2)` are an abstract parameter. Binary floating point is not modelled. Its exact relations are stated for the identity rounding; `Transformation.CategoryKpis` and `Transformation.OrderKpis` state each written value as the rounding applied to its group's exact aggregate.
- Transformation.EmitOrder: the same rounding caveat applies. `return_rate` is bounded for any rounding that keeps [0, 1].
- Transformation.CategoryTable: pandas returns group rows sorted by key. The model lists them in order of first appearance.
- Transformation.OrderTable: the same row-order caveat applies.
- Validation.AddDates: `pd.to_datetime` is the parameter `parse`. Dates are opaque strings.
- Timestamps from `datetime.utcnow()` / `today()` are opaque string inputs `ts`.
- Prices are integer cents, not pandas floats. Columns the KPIs do not read are not modelled.
- Concurrent trigger invocations and their check-then-act race are not modelled. Only sequential invocations are modelled.
- `main()`, `sys.exit`, configuration lookups and import-time side effects are process plumbing. This covers the print at Task_1/task_1.py:160 and the listing at Task_2/task_2.py:261-263 running at import time.
