/** The S3-event Lambda (lambda_trigger.py): on each upload it starts the
    pipeline's state machine once all three raw inputs are present, and
    writes a sentinel object first so that it does so only once. The bucket
    is the set of its keys; the two AWS calls whose outcome the handler
    branches on are an input. */
module Trigger {
  import opened Strings
  import opened Readiness

  /** The sentinel object written before the execution is started. */
  const StatusKey := "status/execution_started.txt"

  /** `has_products`: `head_object` on the exact key succeeds. */
  predicate HasProducts(keys: set<string>)
  {
    ProductFile in keys
  }

  /** `has_orders` / `has_order_items`: listing the folder yields some key
      that is not a folder marker (does not end in `'/'`). */
  predicate HasFileUnder(keys: set<string>, prefix: string)
  {
    exists k :: k in keys && StartsWith(k, prefix) && !EndsWith(k, "/")
  }

  predicate Ready(keys: set<string>)
  {
    HasProducts(keys) && HasFileUnder(keys, OrdersPrefix) && HasFileUnder(keys, OrderItemsPrefix)
  }

  /** How `put_object` of the sentinel and `start_execution` turn out. */
  datatype PutResult = PutOk | PutFailed(error: string)
  datatype StartResult = Started(executionArn: string) | StartFailed(error: string)
  datatype Env = Env(put: PutResult, start: StartResult)

  /** The four shapes of the returned dictionary. */
  datatype Response =
    | AlreadyTriggered
    | Triggered(executionArn: string)
    | Waiting(hasProducts: bool, hasOrders: bool, hasOrderItems: bool)
    | Error(error: string)

  /** One invocation: what it returns, the bucket afterwards, and whether it
      started an execution. */
  datatype Step = Step(response: Response, keys: set<string>, started: bool)

  /** `lambda_handler` as a transition on the bucket. */
  function Handle(keys: set<string>, env: Env): (s: Step)
    // The sentinel short-circuits everything: no write, no start.
    ensures StatusKey in keys ==> s == Step(AlreadyTriggered, keys, false)
    // Waiting exactly when some input is missing; the flags are the three checks.
    ensures s.response.Waiting? <==> StatusKey !in keys && !Ready(keys)
    ensures s.response.Waiting? ==>
              s.keys == keys && !s.started
              && s.response == Waiting(HasProducts(keys), HasFileUnder(keys, OrdersPrefix),
                                       HasFileUnder(keys, OrderItemsPrefix))
    // Starting happens only from a ready bucket without the sentinel, and
    // the sentinel is in place by then.
    ensures s.started <==> StatusKey !in keys && Ready(keys) && env.put.PutOk? && env.start.Started?
    ensures s.started ==> StatusKey in s.keys && s.response == Triggered(env.start.executionArn)
    // Failure of either call is reported; the sentinel stays iff it was written.
    ensures s.response.Error? <==> StatusKey !in keys && Ready(keys) && !(env.put.PutOk? && env.start.Started?)
    ensures s.response.Error? ==> s.keys == (if env.put.PutOk? then keys + {StatusKey} else keys)
    // The bucket only ever gains the sentinel.
    ensures s.keys == keys || s.keys == keys + {StatusKey}
  {
    if StatusKey in keys then Step(AlreadyTriggered, keys, false)
    else
      var hasProducts := HasProducts(keys);
      var hasOrders := HasFileUnder(keys, OrdersPrefix);
      var hasOrderItems := HasFileUnder(keys, OrderItemsPrefix);
      if hasProducts && hasOrders && hasOrderItems then
        match env.put
        case PutFailed(e) => Step(Error(e), keys, false)
        case PutOk =>
          var written := keys + {StatusKey};
          match env.start
          case StartFailed(e) => Step(Error(e), written, false)
          case Started(arn) => Step(Triggered(arn), written, true)
      else
        Step(Waiting(hasProducts, hasOrders, hasOrderItems), keys, false)
  }

  /** Something that happens to the bucket between or as invocations:
      an upload, a deletion, or one run of the handler. */
  datatype Event = Upload(key: string) | Delete(key: string) | Invoke(env: Env)

  /** The bucket after a sequence of events and the number of executions
      started along the way. Invocations do not overlap. */
  datatype Run = Run(keys: set<string>, starts: nat)

  function Replay(keys: set<string>, events: seq<Event>): (r: Run)
    decreases |events|
  {
    if events == [] then Run(keys, 0)
    else
      match events[0]
      case Upload(k) => Replay(keys + {k}, events[1..])
      case Delete(k) => Replay(keys - {k}, events[1..])
      case Invoke(env) =>
        var s := Handle(keys, env);
        var r := Replay(s.keys, events[1..]);
        Run(r.keys, r.starts + (if s.started then 1 else 0))
  }

  /** No event of the run deletes the sentinel. */
  predicate KeepsSentinel(events: seq<Event>)
  {
    forall i :: 0 <= i < |events| ==> events[i] != Delete(StatusKey)
  }

  /** Exactly-once start: as long as nothing deletes the sentinel, a run
      starts at most one execution, none if the sentinel was there at the
      outset, and the sentinel is present at the end once one was started. */
  lemma {:induction false} StartsAtMostOnce(keys: set<string>, events: seq<Event>)
    requires KeepsSentinel(events)
    ensures Replay(keys, events).starts <= 1
    ensures StatusKey in keys ==> Replay(keys, events).starts == 0 && StatusKey in Replay(keys, events).keys
    ensures Replay(keys, events).starts == 1 ==> StatusKey in Replay(keys, events).keys
    decreases |events|
  {
    if events != [] {
      assert KeepsSentinel(events[1..]) by {
        forall i | 0 <= i < |events[1..]| ensures events[1..][i] != Delete(StatusKey) {
          assert events[1..][i] == events[i + 1];
        }
      }
      assert events[0] != Delete(StatusKey);
      match events[0]
      case Upload(k) => StartsAtMostOnce(keys + {k}, events[1..]);
      case Delete(k) => StartsAtMostOnce(keys - {k}, events[1..]);
      case Invoke(env) =>
        var s := Handle(keys, env);
        StartsAtMostOnce(s.keys, events[1..]);
    }
  }

  /** Deleting the sentinel re-arms the trigger: a ready bucket then starts
      a second execution. */
  lemma DeletingSentinelAllowsSecondStart(keys: set<string>, arn: string)
    requires Ready(keys) && StatusKey !in keys
    ensures var ok := Env(PutOk, Started(arn));
            Replay(keys, [Invoke(ok), Delete(StatusKey), Invoke(ok)]).starts == 2
  {
    var ok := Env(PutOk, Started(arn));
    var events := [Invoke(ok), Delete(StatusKey), Invoke(ok)];
    var k1 := keys + {StatusKey};
    assert Ready(k1) by {
      var o :| o in keys && StartsWith(o, OrdersPrefix) && !EndsWith(o, "/");
      var i :| i in keys && StartsWith(i, OrderItemsPrefix) && !EndsWith(i, "/");
      assert o in k1 && i in k1;
    }
    assert k1 - {StatusKey} == keys;
    assert events[1..] == [Delete(StatusKey), Invoke(ok)];
    assert events[1..][1..] == [Invoke(ok)];
    assert Replay(keys, [Invoke(ok)]).starts == 1;
  }

  /** A start that fails after the sentinel was written leaves it behind,
      so every later invocation reports "Already triggered" and the
      pipeline is never started unless someone deletes the sentinel. */
  lemma FailedStartBlocksRetries(keys: set<string>, env: Env, later: Env)
    requires StatusKey !in keys && Ready(keys)
    requires env.put.PutOk? && env.start.StartFailed?
    ensures Handle(keys, env).response == Error(env.start.error)
    ensures Handle(Handle(keys, env).keys, later) == Step(AlreadyTriggered, keys + {StatusKey}, false)
  {
  }

  /** A failed sentinel write leaves the bucket as it was, so the next
      upload retries. */
  lemma FailedWriteAllowsRetry(keys: set<string>, env: Env, later: Env)
    requires StatusKey !in keys && Ready(keys)
    requires env.put.PutFailed?
    ensures Handle(keys, env) == Step(Error(env.put.error), keys, false)
    ensures Handle(Handle(keys, env).keys, later).started <==> later.put.PutOk? && later.start.Started?
  {
  }

  /** The handler is stricter than the validation job's own check: when it
      starts the pipeline, `check_required_files` passes. */
  lemma ReadyImpliesRequiredFiles(keys: set<string>)
    requires Ready(keys)
    ensures CheckRequiredFiles(keys).Ok?
  {
    RequiredPathsAreCollapsed();
    StartsWithItself(ProductFile);
    ListingFinds(keys, ProductFile, ProductFile);
    var o :| o in keys && StartsWith(o, OrdersPrefix) && !EndsWith(o, "/");
    ListingFinds(keys, OrdersPrefix, o);
    var i :| i in keys && StartsWith(i, OrderItemsPrefix) && !EndsWith(i, "/");
    ListingFinds(keys, OrderItemsPrefix, i);
    CheckRequiredFilesPasses(keys);
  }

  /** A folder marker is not a file, whatever else the bucket holds. */
  lemma MarkerIsNotAFile(keys: set<string>)
    requires forall k :: k in keys && StartsWith(k, OrdersPrefix) ==> k == OrdersPrefix
    ensures !HasFileUnder(keys, OrdersPrefix)
  {
    assert EndsWith(OrdersPrefix, "/");
  }

  /** The converse fails: a bucket whose orders folder holds only its
      `raw-data/orders/` marker satisfies `check_required_files`, but the
      handler keeps waiting. */
  lemma FolderMarkerPassesCheckOnly(keys: set<string>)
    requires HasProducts(keys) && HasFileUnder(keys, OrderItemsPrefix)
    requires OrdersPrefix in keys
    requires forall k :: k in keys && StartsWith(k, OrdersPrefix) ==> k == OrdersPrefix
    ensures CheckRequiredFiles(keys).Ok?
    ensures !Ready(keys)
  {
    assert CheckRequiredFiles(keys).Ok? by {
      RequiredPathsAreCollapsed();
      StartsWithItself(ProductFile);
      ListingFinds(keys, ProductFile, ProductFile);
      StartsWithItself(OrdersPrefix);
      ListingFinds(keys, OrdersPrefix, OrdersPrefix);
      var i :| i in keys && StartsWith(i, OrderItemsPrefix) && !EndsWith(i, "/");
      ListingFinds(keys, OrderItemsPrefix, i);
      CheckRequiredFilesPasses(keys);
    }
    MarkerIsNotAFile(keys);
  }

  /** Such a bucket exists. */
  lemma FolderMarkerBucket(item: string)
    requires StartsWith(item, OrderItemsPrefix) && !EndsWith(item, "/")
    ensures var keys := {ProductFile, OrdersPrefix, item};
            HasProducts(keys) && HasFileUnder(keys, OrderItemsPrefix) && OrdersPrefix in keys
            && forall k :: k in keys && StartsWith(k, OrdersPrefix) ==> k == OrdersPrefix
  {
    ProductFileInNoFolder();
    OrderFoldersDisjoint(item);
  }
}
