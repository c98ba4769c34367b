/** The input readiness check of the validation job (Task_1/task_1.py):
    `s3_files_exist` and `check_required_files`. The bucket is the set of its
    object keys; listing with a prefix yields the keys that start with it. */
module Readiness {
  import opened Wrappers
  import opened Strings
  import opened Seqs

  const RawPrefix := "raw-data/"
  const ProductFile := "raw-data/products.csv"
  const OrdersPrefix := "raw-data/orders/"
  const OrderItemsPrefix := "raw-data/order_items/"

  /** `s3_files_exist(prefix)`: listing the (slash-collapsed) prefix yields at
      least one object. */
  predicate FilesExist(bucket: set<string>, prefix: string)
  {
    exists k :: k in bucket && StartsWith(k, CollapseDoubleSlash(prefix))
  }

  /** The three required inputs, in the order they are checked. */
  datatype Required = Products | Orders | OrderItems

  const AllRequired: seq<Required> := [Products, Orders, OrderItems]

  /** The path listed for each input. */
  function PathOf(r: Required): string
  {
    match r
    case Products => ProductFile
    case Orders => OrdersPrefix
    case OrderItems => OrderItemsPrefix
  }

  /** The name reported for each input. */
  function NameOf(r: Required): string
  {
    match r
    case Products => "products.csv"
    case Orders => "orders/"
    case OrderItems => "order_items/"
  }

  /** Position in the checking order. */
  function Rank(r: Required): nat
  {
    match r
    case Products => 0
    case Orders => 1
    case OrderItems => 2
  }

  /** One `if not s3_files_exist(path): missing.append(name)` step. */
  function MissingIf(bucket: set<string>, r: Required): (m: seq<Required>)
    ensures |m| <= 1
    ensures forall x :: x in m <==> x == r && !FilesExist(bucket, PathOf(r))
  {
    if FilesExist(bucket, PathOf(r)) then [] else [r]
  }

  /** The list `missing` built by `check_required_files`, as inputs. */
  function Missing(bucket: set<string>): (m: seq<Required>)
    ensures |m| <= 3
    ensures forall r :: r in m <==> !FilesExist(bucket, PathOf(r))
    ensures forall i, j :: 0 <= i < j < |m| ==> Rank(m[i]) < Rank(m[j])
  {
    var p := MissingIf(bucket, Products);
    var o := MissingIf(bucket, Orders);
    var i := MissingIf(bucket, OrderItems);
    assert forall x :: x in p + o + i <==> x in p || x in o || x in i;
    assert forall x :: x in p + o + i <==> !FilesExist(bucket, PathOf(x)) by {
      forall x ensures x in p + o + i <==> !FilesExist(bucket, PathOf(x)) {
        if x.Products? {
          assert x !in o + i;
        } else if x.Orders? {
          assert x !in p + i;
        } else {
          assert x !in p + o;
        }
      }
    }
    p + o + i
  }

  /** The message of the `FileNotFoundError`: the names joined by `", "`. */
  function MissingMessage(missing: seq<Required>): string
  {
    "Required files not found: " + JoinWith(Column(missing, NameOf), ", ")
  }

  /** `check_required_files()`: raises `FileNotFoundError` exactly when some
      required input is missing, naming all of them. */
  function CheckRequiredFiles(bucket: set<string>): (r: Result<(), string>)
    ensures r.Ok? <==> forall q :: FilesExist(bucket, PathOf(q))
    ensures r.Err? ==> r.error == MissingMessage(Missing(bucket)) && Missing(bucket) != []
  {
    var missing := Missing(bucket);
    if missing != [] then Err(MissingMessage(missing)) else Ok(())
  }

  /** The same, spelled out for the three paths. */
  lemma CheckRequiredFilesPasses(bucket: set<string>)
    ensures CheckRequiredFiles(bucket).Ok? <==>
      FilesExist(bucket, ProductFile) && FilesExist(bucket, OrdersPrefix) && FilesExist(bucket, OrderItemsPrefix)
  {
    assert PathOf(Products) == ProductFile;
    assert PathOf(Orders) == OrdersPrefix;
    assert PathOf(OrderItems) == OrderItemsPrefix;
  }

  /** None of the three paths contains `"//"`, so the collapse leaves them
      alone and `FilesExist` is a plain prefix test on them. */
  lemma RequiredPathsAreCollapsed()
    ensures CollapseDoubleSlash(ProductFile) == ProductFile
    ensures CollapseDoubleSlash(OrdersPrefix) == OrdersPrefix
    ensures CollapseDoubleSlash(OrderItemsPrefix) == OrderItemsPrefix
  {
    assert !HasDoubleSlash(ProductFile);
    assert !HasDoubleSlash(OrdersPrefix);
    assert !HasDoubleSlash(OrderItemsPrefix);
  }

  /** A key under an already collapsed prefix makes the listing non-empty. */
  lemma ListingFinds(bucket: set<string>, prefix: string, k: string)
    requires CollapseDoubleSlash(prefix) == prefix
    requires k in bucket && StartsWith(k, prefix)
    ensures FilesExist(bucket, prefix)
  {
  }

  /** The `products.csv` check is a prefix test, not an exact-key test: a
      bucket holding only `raw-data/products.csv<suffix>` (say
      `raw-data/products.csv.bak`) passes it. */
  lemma ProductCheckIsPrefixTest(suffix: string)
    requires suffix != ""
    ensures FilesExist({ProductFile + suffix}, ProductFile)
    ensures ProductFile !in {ProductFile + suffix}
  {
    var k := ProductFile + suffix;
    RequiredPathsAreCollapsed();
    assert k[..|ProductFile|] == ProductFile;
    ListingFinds({k}, ProductFile, k);
    assert |k| != |ProductFile|;
  }

  /** No key lies under both the orders and the order-items folder. */
  lemma OrderFoldersDisjoint(k: string)
    ensures !(StartsWith(k, OrdersPrefix) && StartsWith(k, OrderItemsPrefix))
  {
    if StartsWith(k, OrdersPrefix) {
      assert k[14] == OrdersPrefix[14] == 's';
    }
    if StartsWith(k, OrderItemsPrefix) {
      assert k[14] == OrderItemsPrefix[14] == '_';
    }
  }

  /** The product file is in neither folder. */
  lemma ProductFileInNoFolder()
    ensures !StartsWith(ProductFile, OrdersPrefix) && !StartsWith(ProductFile, OrderItemsPrefix)
  {
    assert ProductFile[9] == 'p' && OrdersPrefix[9] == 'o' && OrderItemsPrefix[9] == 'o';
  }

  /** An empty bucket reports all three inputs, in order. */
  lemma EmptyBucketMissesAll()
    ensures Missing({}) == AllRequired
    ensures CheckRequiredFiles({}) == Err(MissingMessage(AllRequired))
  {
    var m := Missing({});
    assert forall r :: r in m;
    assert |m| == 3 by {
      assert Products in m && Orders in m && OrderItems in m;
      if |m| < 3 {
        assert false;
      }
    }
    assert Rank(m[0]) == 0 && Rank(m[1]) == 1 && Rank(m[2]) == 2;
  }
}
