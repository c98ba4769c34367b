/** Generic table operations: row filters, column sums, distinct-value sets and
    group-by selection over sequences of rows. */
module Seqs {
  import opened Wrappers

  /** The rows of `s` that satisfy `p`, in their original relative order
      (a boolean-mask selection `df[mask]`). */
  function Filter<T(!new)>(s: seq<T>, p: T -> bool): (r: seq<T>)
    ensures |r| <= |s|
    ensures forall i :: 0 <= i < |r| ==> p(r[i])
    ensures forall x :: x in r <==> x in s && p(x)
  {
    if s == [] then [] else (if p(s[0]) then [s[0]] else []) + Filter(s[1..], p)
  }

  /** The sum of the column `w` over the rows of `s`. */
  function Sum<T(!new)>(s: seq<T>, w: T -> int): int
  {
    if s == [] then 0 else w(s[0]) + Sum(s[1..], w)
  }

  /** The set of values of the column `f` (`nunique` counts its size). */
  function Image<T(!new), U>(s: seq<T>, f: T -> U): (r: set<U>)
    ensures |r| <= |s|
    ensures |s| > 0 ==> |r| >= 1
    ensures forall i :: 0 <= i < |s| ==> f(s[i]) in r
    ensures forall y :: y in r ==> exists i :: 0 <= i < |s| && f(s[i]) == y
  {
    if s == [] then {}
    else
      var rest := Image(s[1..], f);
      assert forall i :: 1 <= i < |s| ==> f(s[i]) in rest by {
        forall i | 1 <= i < |s| ensures f(s[i]) in rest {
          assert s[i] == s[1..][i - 1];
        }
      }
      {f(s[0])} + rest
  }

  /** The set of non-missing values of an optional column (`nunique` skips NaN). */
  function PresentImage<T(!new), U>(s: seq<T>, f: T -> Option<U>): (r: set<U>)
    ensures |r| <= |s|
    ensures forall i :: 0 <= i < |s| && f(s[i]).Some? ==> f(s[i]).value in r
    ensures forall y :: y in r ==> exists i :: 0 <= i < |s| && f(s[i]) == Some(y)
  {
    if s == [] then {}
    else
      var rest := PresentImage(s[1..], f);
      assert forall i :: 1 <= i < |s| && f(s[i]).Some? ==> f(s[i]).value in rest by {
        forall i | 1 <= i < |s| && f(s[i]).Some? ensures f(s[i]).value in rest {
          assert s[i] == s[1..][i - 1];
        }
      }
      match f(s[0])
      case Some(y) => {y} + rest
      case None => rest
  }

  /** No value occurs twice. */
  predicate NoDups<T(==)>(s: seq<T>)
  {
    forall i, j :: 0 <= i < j < |s| ==> s[i] != s[j]
  }

  /** The distinct values of `s` in order of first appearance. */
  function Distinct<T(==,!new)>(s: seq<T>): (r: seq<T>)
    ensures NoDups(r)
    ensures forall x :: x in r <==> x in s
  {
    if s == [] then []
    else
      var d := Distinct(s[..|s| - 1]);
      assert forall x :: x in s <==> x in s[..|s| - 1] || x == s[|s| - 1] by {
        assert s == s[..|s| - 1] + [s[|s| - 1]];
      }
      if s[|s| - 1] in d then d else d + [s[|s| - 1]]
  }

  /** The column `f` of every row. */
  function Column<T(!new), U>(s: seq<T>, f: T -> U): (r: seq<U>)
    ensures |r| == |s|
    ensures forall i :: 0 <= i < |s| ==> r[i] == f(s[i])
  {
    if s == [] then [] else [f(s[0])] + Column(s[1..], f)
  }

  /** The row predicate "the key `key` equals `k`". */
  function Is<T(!new), K(==)>(key: T -> K, k: K): T -> bool
  {
    x => key(x) == k
  }

  /** The row predicate "the key `key` is one of `ks`". */
  function KeyIn<T(!new), K(==)>(key: T -> K, ks: seq<K>): T -> bool
  {
    x => key(x) in ks
  }

  /** The rows of group `k` of a group-by on `key`. */
  function Group<T(!new), K(==)>(s: seq<T>, key: T -> K, k: K): seq<T>
  {
    Filter(s, Is(key, k))
  }

  /** The sums of `w` over the groups `ks`, added up. */
  function GroupSum<T(!new), K(==)>(ks: seq<K>, s: seq<T>, key: T -> K, w: T -> int): int
  {
    if ks == [] then 0 else Sum(Group(s, key, ks[0]), w) + GroupSum(ks[1..], s, key, w)
  }

  // ---------------------------------------------------------------------
  // Lemmas about filters and sums

  /** Filtering distributes over concatenation: the relative order is kept. */
  lemma {:induction false} FilterConcat<T(!new)>(a: seq<T>, b: seq<T>, p: T -> bool)
    ensures Filter(a + b, p) == Filter(a, p) + Filter(b, p)
  {
    if a == [] {
      assert a + b == b;
    } else {
      assert (a + b)[0] == a[0];
      assert (a + b)[1..] == a[1..] + b;
      FilterConcat(a[1..], b, p);
    }
  }

  /** Two masks that agree on every row select the same rows. */
  lemma {:induction false} FilterExt<T(!new)>(s: seq<T>, p: T -> bool, q: T -> bool)
    requires forall x :: x in s ==> p(x) == q(x)
    ensures Filter(s, p) == Filter(s, q)
  {
    if s != [] {
      assert forall x :: x in s[1..] ==> x in s;
      FilterExt(s[1..], p, q);
    }
  }

  /** A mask that every row passes selects the whole table. */
  lemma {:induction false} FilterAll<T(!new)>(s: seq<T>, p: T -> bool)
    requires forall x :: x in s ==> p(x)
    ensures Filter(s, p) == s
  {
    if s != [] {
      assert forall x :: x in s[1..] ==> x in s;
      FilterAll(s[1..], p);
      assert s == [s[0]] + s[1..];
    }
  }

  /** A mask that no row passes selects nothing. */
  lemma {:induction false} FilterNone<T(!new)>(s: seq<T>, p: T -> bool)
    requires forall x :: x in s ==> !p(x)
    ensures Filter(s, p) == []
  {
    if s != [] {
      assert forall x :: x in s[1..] ==> x in s;
      FilterNone(s[1..], p);
    }
  }

  /** Re-applying a mask to its own output changes nothing. */
  lemma FilterIdempotent<T(!new)>(s: seq<T>, p: T -> bool)
    ensures Filter(Filter(s, p), p) == Filter(s, p)
  {
    FilterAll(Filter(s, p), p);
  }

  /** Sums are additive over concatenation. */
  lemma {:induction false} SumConcat<T(!new)>(a: seq<T>, b: seq<T>, w: T -> int)
    ensures Sum(a + b, w) == Sum(a, w) + Sum(b, w)
  {
    if a == [] {
      assert a + b == b;
    } else {
      assert (a + b)[0] == a[0];
      assert (a + b)[1..] == a[1..] + b;
      SumConcat(a[1..], b, w);
    }
  }

  /** Splitting a mask into two disjoint masks splits its sum. */
  lemma {:induction false} SumSplit<T(!new)>(s: seq<T>, r: T -> bool, p: T -> bool, q: T -> bool, w: T -> int)
    requires forall x :: x in s ==> (r(x) <==> p(x) || q(x))
    requires forall x :: x in s ==> !(p(x) && q(x))
    ensures Sum(Filter(s, r), w) == Sum(Filter(s, p), w) + Sum(Filter(s, q), w)
  {
    if s != [] {
      assert forall x :: x in s[1..] ==> x in s;
      SumSplit(s[1..], r, p, q, w);
      var h := [s[0]];
      SumConcat(if r(s[0]) then h else [], Filter(s[1..], r), w);
      SumConcat(if p(s[0]) then h else [], Filter(s[1..], p), w);
      SumConcat(if q(s[0]) then h else [], Filter(s[1..], q), w);
    }
  }

  /** With non-negative weights, a weaker mask never sums to less. */
  lemma {:induction false} SumFilterMono<T(!new)>(s: seq<T>, p: T -> bool, q: T -> bool, w: T -> int)
    requires forall x :: x in s ==> (p(x) ==> q(x))
    requires forall x :: x in s ==> w(x) >= 0
    ensures Sum(Filter(s, p), w) <= Sum(Filter(s, q), w)
  {
    if s != [] {
      assert forall x :: x in s[1..] ==> x in s;
      SumFilterMono(s[1..], p, q, w);
      var h := [s[0]];
      SumConcat(if p(s[0]) then h else [], Filter(s[1..], p), w);
      SumConcat(if q(s[0]) then h else [], Filter(s[1..], q), w);
    }
  }

  /** Counting rows is summing the constant 1. */
  lemma {:induction false} SumOnes<T(!new)>(s: seq<T>, w: T -> int)
    requires forall x :: x in s ==> w(x) == 1
    ensures Sum(s, w) == |s|
  {
    if s != [] {
      assert forall x :: x in s[1..] ==> x in s;
      SumOnes(s[1..], w);
    }
  }

  /** A filter of a duplicate-free sequence is duplicate-free. */
  lemma {:induction false} FilterNoDups<T(!new)>(s: seq<T>, p: T -> bool)
    requires NoDups(s)
    ensures NoDups(Filter(s, p))
  {
    if s != [] {
      assert NoDups(s[1..]) by {
        forall i, j | 0 <= i < j < |s[1..]| ensures s[1..][i] != s[1..][j] {
          assert s[1..][i] == s[i + 1] && s[1..][j] == s[j + 1];
        }
      }
      FilterNoDups(s[1..], p);
      assert s[0] !in s[1..] by {
        forall j | 0 <= j < |s[1..]| ensures s[1..][j] != s[0] {
          assert s[1..][j] == s[j + 1];
        }
      }
      var f := Filter(s[1..], p);
      var r := (if p(s[0]) then [s[0]] else []) + f;
      forall i, j | 0 <= i < j < |r| ensures r[i] != r[j] {
        if p(s[0]) && i == 0 {
          assert r[j] == f[j - 1];
          assert r[j] in s[1..];
        }
      }
    }
  }

  /** Partition law: summing `w` group by group over distinct keys `ks` gives
      the sum of `w` over the rows whose key is one of `ks`. */
  lemma {:induction false} PartitionSum<T(!new), K>(ks: seq<K>, s: seq<T>, key: T -> K, w: T -> int)
    requires NoDups(ks)
    ensures GroupSum(ks, s, key, w) == Sum(Filter(s, KeyIn(key, ks)), w)
  {
    if ks == [] {
      FilterNone(s, KeyIn(key, ks));
    } else {
      assert NoDups(ks[1..]) by {
        forall i, j | 0 <= i < j < |ks[1..]| ensures ks[1..][i] != ks[1..][j] {
          assert ks[1..][i] == ks[i + 1] && ks[1..][j] == ks[j + 1];
        }
      }
      PartitionSum(ks[1..], s, key, w);
      assert ks[0] !in ks[1..] by {
        forall j | 0 <= j < |ks[1..]| ensures ks[1..][j] != ks[0] {
          assert ks[1..][j] == ks[j + 1];
        }
      }
      assert forall k :: k in ks <==> k == ks[0] || k in ks[1..] by {
        assert ks == [ks[0]] + ks[1..];
      }
      SumSplit(s, KeyIn(key, ks), Is(key, ks[0]), KeyIn(key, ks[1..]), w);
    }
  }
}
