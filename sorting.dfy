/** The stable, largest-first sort used throughout the system: Python's
    `sorted(items, key=k, reverse=True)` (api/analyze.py) and JavaScript's
    `[...xs].sort((a, b) => k(b) - k(a))` (src/App.tsx) both keep elements
    with equal keys in their input order. */
module Sorting {

  ghost predicate SortedDesc<T>(s: seq<T>, key: T -> real) {
    forall i, j :: 0 <= i < j < |s| ==> key(s[i]) >= key(s[j])
  }

  /** Places `x` in front of the first element whose key is not larger than its own. */
  function Insert<T>(x: T, s: seq<T>, key: T -> real): seq<T> {
    if s == [] || key(s[0]) <= key(x) then [x] + s
    else [s[0]] + Insert(x, s[1..], key)
  }

  lemma SortedCons<T>(h: T, t: seq<T>, key: T -> real)
    requires SortedDesc(t, key)
    requires forall k :: 0 <= k < |t| ==> key(h) >= key(t[k])
    ensures SortedDesc([h] + t, key)
  {
    var r := [h] + t;
    forall i, j | 0 <= i < j < |r| ensures key(r[i]) >= key(r[j]) {
      assert r[j] == t[j - 1];
      if i > 0 { assert r[i] == t[i - 1]; }
    }
  }

  lemma {:induction false} InsertSorted<T>(x: T, s: seq<T>, key: T -> real)
    requires SortedDesc(s, key)
    ensures |Insert(x, s, key)| == |s| + 1
    ensures multiset(Insert(x, s, key)) == multiset(s) + multiset{x}
    ensures SortedDesc(Insert(x, s, key), key)
  {
    if s == [] || key(s[0]) <= key(x) {
      forall k | 0 <= k < |s| ensures key(x) >= key(s[k]) {
        assert key(s[0]) >= key(s[k]) || k == 0;
      }
      SortedCons(x, s, key);
    } else {
      var rest := Insert(x, s[1..], key);
      InsertSorted(x, s[1..], key);
      assert s == [s[0]] + s[1..];
      forall k | 0 <= k < |rest| ensures key(s[0]) >= key(rest[k]) {
        var y := rest[k];
        assert y in multiset(rest);
        if y != x {
          assert y in multiset(s[1..]);
          var m :| 0 <= m < |s[1..]| && s[1..][m] == y;
          assert s[m + 1] == y;
        }
      }
      SortedCons(s[0], rest, key);
    }
  }

  /** Insertion sort, largest key first. */
  function SortDesc<T>(s: seq<T>, key: T -> real): (r: seq<T>)
    ensures |r| == |s|
    ensures multiset(r) == multiset(s)
    ensures SortedDesc(r, key)
  {
    if s == [] then []
    else
      var tail := SortDesc(s[1..], key);
      InsertSorted(s[0], tail, key);
      assert s == [s[0]] + s[1..];
      Insert(s[0], tail, key)
  }

  /** The elements of `s` whose key is `v`, in order. */
  function WithKey<T>(s: seq<T>, key: T -> real, v: real): seq<T> {
    if s == [] then []
    else (if key(s[0]) == v then [s[0]] else []) + WithKey(s[1..], key, v)
  }

  lemma {:induction false} InsertStable<T>(x: T, s: seq<T>, key: T -> real, v: real)
    ensures WithKey(Insert(x, s, key), key, v)
         == (if key(x) == v then [x] else []) + WithKey(s, key, v)
  {
    var mine: seq<T> := if key(x) == v then [x] else [];
    if s == [] || key(s[0]) <= key(x) {
      assert ([x] + s)[1..] == s;
      assert WithKey([x] + s, key, v) == mine + WithKey(s, key, v);
    } else {
      var rest := Insert(x, s[1..], key);
      InsertStable(x, s[1..], key, v);
      assert ([s[0]] + rest)[1..] == rest;
      var head: seq<T> := if key(s[0]) == v then [s[0]] else [];
      assert WithKey([s[0]] + rest, key, v) == head + WithKey(rest, key, v);
      assert WithKey(s, key, v) == head + WithKey(s[1..], key, v);
      assert head == [] || mine == [];
      assert head + (mine + WithKey(s[1..], key, v)) == mine + (head + WithKey(s[1..], key, v));
    }
  }

  /** Stability: among elements with equal keys the sort keeps the input order. */
  lemma {:induction false} SortDescStable<T>(s: seq<T>, key: T -> real, v: real)
    ensures WithKey(SortDesc(s, key), key, v) == WithKey(s, key, v)
  {
    if s != [] {
      SortDescStable(s[1..], key, v);
      InsertStable(s[0], SortDesc(s[1..], key), key, v);
    }
  }

  /** When the input is listed in increasing order of `tag`, the sorted output
      is ordered by key, largest first, and by `tag` among equal keys. */
  ghost predicate KeyThenTag<T>(s: seq<T>, key: T -> real, tag: T -> int) {
    forall i, j :: 0 <= i < j < |s| ==>
      key(s[i]) > key(s[j]) || (key(s[i]) == key(s[j]) && tag(s[i]) < tag(s[j]))
  }

  /** `h` may lead `t` when it comes before every element of `t` in the
      key-then-tag order. */
  ghost predicate Precedes<T>(h: T, t: seq<T>, key: T -> real, tag: T -> int) {
    forall k :: 0 <= k < |t| ==> key(h) > key(t[k]) || (key(h) == key(t[k]) && tag(h) < tag(t[k]))
  }

  lemma KeyThenTagCons<T>(h: T, t: seq<T>, key: T -> real, tag: T -> int)
    requires KeyThenTag(t, key, tag) && Precedes(h, t, key, tag)
    ensures KeyThenTag([h] + t, key, tag)
  {
    var r := [h] + t;
    forall i, j | 0 <= i < j < |r|
      ensures key(r[i]) > key(r[j]) || (key(r[i]) == key(r[j]) && tag(r[i]) < tag(r[j]))
    {
      assert r[j] == t[j - 1];
      if i > 0 {
        assert r[i] == t[i - 1];
      }
    }
  }

  lemma {:induction false} InsertKeyThenTag<T>(x: T, s: seq<T>, key: T -> real, tag: T -> int)
    requires SortedDesc(s, key) && KeyThenTag(s, key, tag)
    requires forall k :: 0 <= k < |s| ==> tag(x) < tag(s[k])
    ensures KeyThenTag(Insert(x, s, key), key, tag)
  {
    if s == [] || key(s[0]) <= key(x) {
      forall k | 0 <= k < |s| ensures key(x) > key(s[k]) || (key(x) == key(s[k]) && tag(x) < tag(s[k])) {
        assert key(s[0]) >= key(s[k]) || k == 0;
      }
      KeyThenTagCons(x, s, key, tag);
    } else {
      var rest := Insert(x, s[1..], key);
      InsertSorted(x, s[1..], key);
      InsertKeyThenTag(x, s[1..], key, tag);
      forall k | 0 <= k < |rest|
        ensures key(s[0]) > key(rest[k]) || (key(s[0]) == key(rest[k]) && tag(s[0]) < tag(rest[k]))
      {
        var y := rest[k];
        assert y in multiset(rest);
        if y != x {
          assert y in multiset(s[1..]);
          var m :| 0 <= m < |s[1..]| && s[1..][m] == y;
          assert s[m + 1] == y;
        }
      }
      KeyThenTagCons(s[0], rest, key, tag);
    }
  }

  lemma {:induction false} SortDescKeyThenTag<T>(s: seq<T>, key: T -> real, tag: T -> int)
    requires forall i, j :: 0 <= i < j < |s| ==> tag(s[i]) < tag(s[j])
    ensures KeyThenTag(SortDesc(s, key), key, tag)
  {
    if s != [] {
      SortDescKeyThenTag(s[1..], key, tag);
      var tail := SortDesc(s[1..], key);
      forall k | 0 <= k < |tail| ensures tag(s[0]) < tag(tail[k]) {
        assert tail[k] in multiset(s[1..]);
        var m :| 0 <= m < |s[1..]| && s[1..][m] == tail[k];
        assert s[m + 1] == tail[k];
      }
      InsertKeyThenTag(s[0], tail, key, tag);
    }
  }
}
