/** The archiving step of the transformation job (Task_2/task_2.py): the
    list of raw input files to archive and `archive_data`, which copies each
    one under `archive/<timestamp>/` and deletes the original. The bucket is
    the set of its keys; a listing is the bucket's keys in listing order. */
module Archive {
  import opened Wrappers
  import opened Strings
  import opened Seqs
  import opened Readiness

  const ArchivePrefix := "archive/"
  const CsvSuffix := ".csv"

  /** `ARCHIVE_PREFIX + timestamp + '/' + key.split('/', 1)[1]`: the key with
      its first path segment replaced by `archive/<ts>`. `None` stands for the
      `IndexError` raised when the key has no `'/'`. */
  function ArchiveKey(ts: string, key: string): (r: Option<string>)
    ensures r.None? <==> '/' !in key
    ensures r.Some? ==> StartsWith(r.value, ArchivePrefix + ts + "/")
  {
    match AfterFirstSlash(key)
    case None => None
    case Some(rest) => Some(ArchivePrefix + ts + "/" + rest)
  }

  /** The first path segment, whatever it is, is replaced by the archive
      folder and the rest of the key is kept. */
  lemma ArchiveKeyDropsSegment(ts: string, segment: string, path: string)
    requires '/' !in segment
    ensures ArchiveKey(ts, segment + "/" + path) == Some(ArchivePrefix + ts + "/" + path)
  {
    AfterFirstSlashJoin(segment, path);
  }

  /** A raw input file keeps its path below `raw-data/`. */
  lemma RawFileArchiveKey(ts: string, path: string)
    ensures ArchiveKey(ts, RawPrefix + path) == Some(ArchivePrefix + ts + "/" + path)
  {
    assert RawPrefix + path == "raw-data" + "/" + path;
    ArchiveKeyDropsSegment(ts, "raw-data", path);
  }

  /** Two raw files never share an archive key. */
  lemma RawArchiveKeyInjective(ts: string, a: string, b: string)
    requires StartsWith(a, RawPrefix) && StartsWith(b, RawPrefix)
    requires ArchiveKey(ts, a) == ArchiveKey(ts, b)
    ensures a == b
  {
    assert a == RawPrefix + a[|RawPrefix|..];
    assert b == RawPrefix + b[|RawPrefix|..];
    RawFileArchiveKey(ts, a[|RawPrefix|..]);
    RawFileArchiveKey(ts, b[|RawPrefix|..]);
    var pa := ArchivePrefix + ts + "/";
    assert (pa + a[|RawPrefix|..])[|pa|..] == a[|RawPrefix|..];
    assert (pa + b[|RawPrefix|..])[|pa|..] == b[|RawPrefix|..];
  }

  /** Keys under different top-level folders collide: only the part after
      the first segment survives. */
  lemma ArchiveKeysCanCollide(ts: string, path: string)
    ensures ArchiveKey(ts, RawPrefix + path) == ArchiveKey(ts, "validated/" + path)
  {
    RawFileArchiveKey(ts, path);
    assert "validated/" + path == "validated" + "/" + path;
    ArchiveKeyDropsSegment(ts, "validated", path);
  }

  /** An archive key is never a raw file's key, so archiving never
      overwrites or deletes an input. */
  lemma ArchiveKeyIsNotRaw(ts: string, key: string, raw: string)
    requires ArchiveKey(ts, key).Some?
    requires StartsWith(raw, RawPrefix)
    ensures ArchiveKey(ts, key).value != raw
  {
    var v := ArchiveKey(ts, key).value;
    assert v[0] == (ArchivePrefix + ts + "/")[0] == 'a';
    assert raw[0] == RawPrefix[0] == 'r';
  }

  /** Row predicates for the two listing filters. */
  function Under(prefix: string): string -> bool
  {
    k => StartsWith(k, prefix)
  }

  function IsCsv(): string -> bool
  {
    k => EndsWith(k, CsvSuffix)
  }

  /** The `.csv` keys that listing `prefix` returns, in listing order. */
  function CsvUnder(listing: seq<string>, prefix: string): (r: seq<string>)
    ensures forall k :: k in r <==> k in listing && StartsWith(k, prefix) && EndsWith(k, CsvSuffix)
    ensures forall i :: 0 <= i < |r| ==> StartsWith(r[i], prefix)
    ensures NoDups(listing) ==> NoDups(r)
  {
    var r := Filter(Filter(listing, Under(prefix)), IsCsv());
    assert forall i :: 0 <= i < |r| ==> r[i] in Filter(listing, Under(prefix));
    assert NoDups(listing) ==> NoDups(r) by {
      if NoDups(listing) {
        FilterNoDups(listing, Under(prefix));
        FilterNoDups(Filter(listing, Under(prefix)), IsCsv());
      }
    }
    r
  }

  /** `all_files`: the product file, then the `.csv` files of the orders
      folder, then those of the order-items folder. Folder markers and other
      non-`.csv` keys are skipped; the product file is listed whether or not
      it exists. */
  function ArchiveFileList(listing: seq<string>): (files: seq<string>)
    ensures |files| >= 1 && files[0] == ProductFile
    ensures forall k :: k in files[1..] <==>
              k in listing && EndsWith(k, CsvSuffix) && (StartsWith(k, OrdersPrefix) || StartsWith(k, OrderItemsPrefix))
  {
    var os := CsvUnder(listing, OrdersPrefix);
    var its := CsvUnder(listing, OrderItemsPrefix);
    var files := [ProductFile] + (os + its);
    assert files[1..] == os + its;
    assert forall k :: k in os + its <==> k in os || k in its;
    files
  }

  /** Where each entry of the file list sits: after the product file come
      the orders files, then the order-items files. */
  lemma ArchiveFileListLayout(listing: seq<string>, i: int)
    requires 0 < i < |ArchiveFileList(listing)|
    ensures var os := CsvUnder(listing, OrdersPrefix);
            if i <= |os| then ArchiveFileList(listing)[i] == os[i - 1] && StartsWith(ArchiveFileList(listing)[i], OrdersPrefix)
            else ArchiveFileList(listing)[i] == CsvUnder(listing, OrderItemsPrefix)[i - 1 - |os|]
                 && StartsWith(ArchiveFileList(listing)[i], OrderItemsPrefix)
  {
  }

  /** Every archived file lies under `raw-data/`. */
  lemma ArchiveFileListIsRaw(listing: seq<string>)
    ensures forall k :: k in ArchiveFileList(listing) ==> StartsWith(k, RawPrefix)
  {
    var files := ArchiveFileList(listing);
    forall k | k in files ensures StartsWith(k, RawPrefix) {
      var i :| 0 <= i < |files| && files[i] == k;
      if i > 0 {
        ArchiveFileListLayout(listing, i);
        if StartsWith(k, OrdersPrefix) {
          assert k[..|RawPrefix|] == k[..|OrdersPrefix|][..|RawPrefix|];
        } else {
          assert k[..|RawPrefix|] == k[..|OrderItemsPrefix|][..|RawPrefix|];
        }
      }
    }
  }

  /** Every orders file precedes every order-items file. */
  lemma ArchiveFileListOrdered(listing: seq<string>, i: int, j: int)
    requires 0 < i < |ArchiveFileList(listing)| && 0 < j < |ArchiveFileList(listing)|
    requires StartsWith(ArchiveFileList(listing)[j], OrdersPrefix)
    requires StartsWith(ArchiveFileList(listing)[i], OrderItemsPrefix)
    ensures j < i
  {
    ArchiveFileListLayout(listing, i);
    ArchiveFileListLayout(listing, j);
    OrderFoldersDisjoint(ArchiveFileList(listing)[i]);
    OrderFoldersDisjoint(ArchiveFileList(listing)[j]);
  }

  /** A duplicate-free listing gives a duplicate-free file list, so no file
      is archived twice. */
  lemma ArchiveFileListNoDups(listing: seq<string>)
    requires NoDups(listing)
    ensures NoDups(ArchiveFileList(listing))
  {
    var files := ArchiveFileList(listing);
    var os := CsvUnder(listing, OrdersPrefix);
    var its := CsvUnder(listing, OrderItemsPrefix);
    ProductFileInNoFolder();
    forall i, j | 0 <= i < j < |files| ensures files[i] != files[j] {
      ArchiveFileListLayout(listing, j);
      if i > 0 {
        ArchiveFileListLayout(listing, i);
        if i <= |os| && j > |os| {
          OrderFoldersDisjoint(files[i]);
        }
      }
    }
  }

  /** Where `archive_data` stops: after the whole list, or at the key whose
      archive key cannot be formed or whose copy fails because the object
      does not exist. Keys before that one have been moved already. */
  datatype ArchiveOutcome = Archived(bucket: set<string>) | Failed(bucket: set<string>, key: string)

  /** Some key of `files` archives to `x`. */
  predicate ArchivedFrom(ts: string, files: seq<string>, x: string)
  {
    exists k :: k in files && ArchiveKey(ts, k) == Some(x)
  }

  /** `archive_data(files)`: for each key in turn, copy it to its archive
      key, then delete it. */
  function ArchiveData(bucket: set<string>, ts: string, files: seq<string>): (o: ArchiveOutcome)
    decreases |files|
    ensures o.Failed? ==> o.key in files
    ensures o.Archived? ==> forall k :: k in files ==> '/' in k
    ensures forall x :: x !in files && !ArchivedFrom(ts, files, x) ==> (x in o.bucket <==> x in bucket)
  {
    if files == [] then Archived(bucket)
    else
      var key := files[0];
      match ArchiveKey(ts, key)
      case None => Failed(bucket, key)
      case Some(target) =>
        if key !in bucket then Failed(bucket, key)
        else
          var o := ArchiveData((bucket + {target}) - {key}, ts, files[1..]);
          assert forall k :: k in files <==> k == key || k in files[1..] by {
            assert files == [key] + files[1..];
          }
          o
  }

  /** Archiving duplicate-free raw files that are all present moves every one
      of them: the original is gone and its archive copy is there. */
  lemma {:induction false} ArchiveMovesAll(bucket: set<string>, ts: string, files: seq<string>)
    requires NoDups(files)
    requires forall k :: k in files ==> k in bucket && StartsWith(k, RawPrefix)
    decreases |files|
    ensures ArchiveData(bucket, ts, files).Archived?
    ensures forall k :: k in files ==> k !in ArchiveData(bucket, ts, files).bucket
    ensures forall k :: k in files ==> ArchiveKey(ts, k).Some? && ArchiveKey(ts, k).value in ArchiveData(bucket, ts, files).bucket
  {
    if files != [] {
      var key := files[0];
      var rest := files[1..];
      assert files == [key] + rest;
      assert key in files;
      RawFileArchiveKey(ts, key[|RawPrefix|..]);
      assert key == RawPrefix + key[|RawPrefix|..];
      var target := ArchiveKey(ts, key).value;
      var b1 := (bucket + {target}) - {key};
      assert NoDups(rest) by {
        forall i, j | 0 <= i < j < |rest| ensures rest[i] != rest[j] {
          assert rest[i] == files[i + 1] && rest[j] == files[j + 1];
        }
      }
      assert key !in rest by {
        forall j | 0 <= j < |rest| ensures rest[j] != key {
          assert rest[j] == files[j + 1];
        }
      }
      ArchiveMovesAll(b1, ts, rest);
      var o := ArchiveData(b1, ts, rest);
      assert ArchiveData(bucket, ts, files) == o;
      assert !ArchivedFrom(ts, rest, key) by {
        forall k | k in rest && ArchiveKey(ts, k).Some? ensures ArchiveKey(ts, k).value != key {
          ArchiveKeyIsNotRaw(ts, k, key);
        }
      }
      assert key !in o.bucket;
      if !ArchivedFrom(ts, rest, target) {
        assert target !in rest by {
          if target in rest { ArchiveKeyIsNotRaw(ts, key, target); }
        }
        assert target in o.bucket;
      }
    }
  }

  /** Archiving the file list built from a duplicate-free listing of the
      bucket moves every listed file, provided the product file exists. */
  lemma ArchiveFileListMovesAll(bucket: set<string>, ts: string, listing: seq<string>)
    requires NoDups(listing)
    requires forall k :: k in listing ==> k in bucket
    requires ProductFile in bucket
    ensures var files := ArchiveFileList(listing);
            var o := ArchiveData(bucket, ts, files);
            o.Archived? && forall k :: k in files ==> k !in o.bucket && ArchiveKey(ts, k).value in o.bucket
  {
    var files := ArchiveFileList(listing);
    ArchiveFileListIsRaw(listing);
    ArchiveFileListNoDups(listing);
    forall k | k in files ensures k in bucket {
      if k != ProductFile {
        assert k in files[1..] by {
          assert files == [files[0]] + files[1..];
        }
      }
    }
    ArchiveMovesAll(bucket, ts, files);
  }
}
