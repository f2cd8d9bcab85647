/** Ordering of query results by a numeric key (the database's `orderBy`). */
module Ordering {

  /** Every element's key is at most that of any later element. */
  ghost predicate Ascending<T>(s: seq<T>, key: T -> int)
  {
    forall i, j :: 0 <= i < j < |s| ==> key(s[i]) <= key(s[j])
  }

  /** Places `x` before the first element whose key is at least `x`'s. */
  function InsertByKey<T>(x: T, s: seq<T>, key: T -> int): (r: seq<T>)
    requires Ascending(s, key)
    ensures Ascending(r, key)
    ensures multiset(r) == multiset(s) + multiset{x}
  {
    if s == [] || key(x) <= key(s[0]) then
      [x] + s
    else
      var tail := InsertByKey(x, s[1..], key);
      InsertStep(x, s, key, tail);
      [s[0]] + tail
  }

  /** Putting the first element in front of the sorted insertion into the rest keeps the
      order when the first element's key is below the inserted one's. */
  lemma InsertStep<T>(x: T, s: seq<T>, key: T -> int, tail: seq<T>)
    requires s != [] && key(s[0]) < key(x) && Ascending(s, key)
    requires Ascending(tail, key) && multiset(tail) == multiset(s[1..]) + multiset{x}
    ensures Ascending([s[0]] + tail, key)
    ensures multiset([s[0]] + tail) == multiset(s) + multiset{x}
  {
    assert s == [s[0]] + s[1..];
    var r := [s[0]] + tail;
    forall k | 0 <= k < |tail| ensures key(s[0]) <= key(tail[k]) {
      assert tail[k] in multiset(tail);
      if tail[k] != x {
        assert tail[k] in multiset(s[1..]);
        var j :| 0 <= j < |s[1..]| && s[1..][j] == tail[k];
        assert s[j + 1] == tail[k];
      }
    }
    forall i, j | 0 <= i < j < |r| ensures key(r[i]) <= key(r[j]) {
      if i == 0 { assert r[j] == tail[j - 1]; } else { assert r[i] == tail[i - 1] && r[j] == tail[j - 1]; }
    }
  }

  /** An insertion sort: the elements of `s`, ascending by `key`. */
  function SortByKey<T>(s: seq<T>, key: T -> int): (r: seq<T>)
    ensures Ascending(r, key)
    ensures multiset(r) == multiset(s)
    ensures |r| == |s|
  {
    if s == [] then []
    else
      assert s == [s[0]] + s[1..];
      InsertByKey(s[0], SortByKey(s[1..], key), key)
  }
}
