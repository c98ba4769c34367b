/** The handful of Python `str` operations the pipeline relies on, over
    `string` (= `seq<char>`). */
module Strings {
  import opened Wrappers

  /** `s.startswith(p)` */
  predicate StartsWith(s: string, p: string)
  {
    |p| <= |s| && s[..|p|] == p
  }

  lemma StartsWithItself(s: string)
    ensures StartsWith(s, s)
  {
    assert s[..|s|] == s;
  }

  /** `s.endswith(p)` */
  predicate EndsWith(s: string, p: string)
  {
    |p| <= |s| && s[|s| - |p|..] == p
  }

  /** `"//"` occurs somewhere in `s`. */
  predicate HasDoubleSlash(s: string)
  {
    exists i :: 0 <= i < |s| - 1 && s[i] == '/' && s[i + 1] == '/'
  }

  /** `s.replace('//', '/')`: occurrences are replaced left to right without
      overlapping, so `"///"` becomes `"//"`. */
  function CollapseDoubleSlash(s: string): (r: string)
    ensures |r| <= |s|
    ensures HasDoubleSlash(s) ==> |r| < |s|
    ensures r == s <==> !HasDoubleSlash(s)
  {
    if |s| >= 2 && s[0] == '/' && s[1] == '/' then
      "/" + CollapseDoubleSlash(s[2..])
    else if s == [] then
      []
    else
      var rest := CollapseDoubleSlash(s[1..]);
      assert HasDoubleSlash(s) ==> HasDoubleSlash(s[1..]) by {
        if HasDoubleSlash(s) {
          var i :| 0 <= i < |s| - 1 && s[i] == '/' && s[i + 1] == '/';
          assert i >= 1;
          assert s[1..][i - 1] == '/' && s[1..][i] == '/';
        }
      }
      assert !HasDoubleSlash(s) ==> !HasDoubleSlash(s[1..]) by {
        if HasDoubleSlash(s[1..]) {
          var i :| 0 <= i < |s[1..]| - 1 && s[1..][i] == '/' && s[1..][i + 1] == '/';
          assert s[i + 1] == '/' && s[i + 2] == '/';
        }
      }
      assert !HasDoubleSlash(s) ==> s == [s[0]] + s[1..];
      [s[0]] + rest
  }

  /** `key.split('/', 1)[1]`: everything after the first `'/'`; the indexing
      raises `IndexError` (here `None`) when the key has no `'/'`. */
  function AfterFirstSlash(key: string): (r: Option<string>)
    ensures r.None? <==> '/' !in key
    ensures r.Some? ==> |r.value| < |key|
  {
    if key == [] then None
    else if key[0] == '/' then Some(key[1..])
    else
      match AfterFirstSlash(key[1..])
      case None =>
        assert key == [key[0]] + key[1..];
        None
      case Some(rest) => Some(rest)
  }

  /** Splitting after the first `'/'` undoes joining a slash-free segment. */
  lemma {:induction false} AfterFirstSlashJoin(segment: string, rest: string)
    requires '/' !in segment
    ensures AfterFirstSlash(segment + "/" + rest) == Some(rest)
  {
    var key := segment + "/" + rest;
    if segment == [] {
      assert key == "/" + rest;
    } else {
      assert key[0] == segment[0];
      assert key[1..] == segment[1..] + "/" + rest;
      AfterFirstSlashJoin(segment[1..], rest);
    }
  }

  /** `key.split('/', 1)[0]`: everything before the first `'/'`. */
  function BeforeFirstSlash(key: string): string
  {
    if key == [] || key[0] == '/' then [] else [key[0]] + BeforeFirstSlash(key[1..])
  }

  /** Any key that has a slash is such a join: the part before the first
      slash is slash-free, and the split-off rest follows it. */
  lemma {:induction false} AfterFirstSlashSplits(key: string)
    requires '/' in key
    ensures '/' !in BeforeFirstSlash(key)
    ensures key == BeforeFirstSlash(key) + "/" + AfterFirstSlash(key).value
  {
    if key[0] != '/' {
      assert key == [key[0]] + key[1..];
      AfterFirstSlashSplits(key[1..]);
    }
  }

  /** `sep.join(parts)` */
  function JoinWith(parts: seq<string>, sep: string): (r: string)
    ensures parts == [] ==> r == ""
    ensures |parts| == 1 ==> r == parts[0]
  {
    if parts == [] then ""
    else if |parts| == 1 then parts[0]
    else parts[0] + sep + JoinWith(parts[1..], sep)
  }
}
