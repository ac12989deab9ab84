/**
 * Python's `list.sort(key=..., reverse=True)` on a list: a stable sort into
 * non-increasing key order. Elements with equal keys keep their relative order
 * (Python keeps stability under `reverse=True`).
 */
module StableSort {

  /** Keys never increase from left to right. */
  predicate SortedDesc<T>(s: seq<T>, key: T -> real) {
    forall i, j :: 0 <= i < j < |s| ==> key(s[i]) >= key(s[j])
  }

  /** The elements of `s` whose key is `k`, in their order in `s`. */
  function WithKey<T>(s: seq<T>, key: T -> real, k: real): (r: seq<T>)
    ensures |r| <= |s|
  {
    if s == [] then []
    else (if key(s[0]) == k then [s[0]] else []) + WithKey(s[1..], key, k)
  }

  lemma {:induction false} WithKeyAppend<T>(a: seq<T>, b: seq<T>, key: T -> real, k: real)
    ensures WithKey(a + b, key, k) == WithKey(a, key, k) + WithKey(b, key, k)
  {
    if a != [] {
      assert (a + b)[0] == a[0];
      assert (a + b)[1..] == a[1..] + b;
      WithKeyAppend(a[1..], b, key, k);
    } else {
      assert a + b == b;
    }
  }

  /** No element of a sorted sequence headed by a key below `k` has key `k`. */
  lemma {:induction false} WithKeyBelow<T>(s: seq<T>, key: T -> real, k: real)
    requires SortedDesc(s, key)
    requires s != [] ==> key(s[0]) < k
    ensures WithKey(s, key, k) == []
  {
    if s != [] {
      assert s[1..] != [] ==> key(s[1..][0]) <= key(s[0]);
      WithKeyBelow(s[1..], key, k);
    }
  }

  /** The tail of a sorted sequence is sorted and no larger than its head. */
  lemma SortedTail<T>(s: seq<T>, key: T -> real)
    requires SortedDesc(s, key) && s != []
    ensures SortedDesc(s[1..], key)
    ensures forall j :: 0 <= j < |s[1..]| ==> key(s[1..][j]) <= key(s[0])
  {
    forall i, j | 0 <= i < j < |s[1..]| ensures key(s[1..][i]) >= key(s[1..][j]) {
      assert s[1..][i] == s[i + 1] && s[1..][j] == s[j + 1];
    }
    forall j | 0 <= j < |s[1..]| ensures key(s[1..][j]) <= key(s[0]) {
      assert s[1..][j] == s[j + 1];
    }
  }

  /** Putting an element no smaller than the head in front of a sorted sequence keeps it sorted. */
  lemma SortedCons<T>(a: T, t: seq<T>, key: T -> real)
    requires SortedDesc(t, key)
    requires t != [] ==> key(a) >= key(t[0])
    ensures SortedDesc([a] + t, key)
  {
    var r := [a] + t;
    forall i, j | 0 <= i < j < |r| ensures key(r[i]) >= key(r[j]) {
      assert r[j] == t[j - 1];
      if i == 0 {
        assert key(t[0]) >= key(t[j - 1]) || j - 1 == 0;
      } else {
        assert r[i] == t[i - 1];
      }
    }
  }

  /**
   * Inserts `x` after every element whose key is at least `x`'s, that is
   * before the first element with a strictly smaller key.
   */
  function Insert<T>(x: T, s: seq<T>, key: T -> real): (r: seq<T>)
    ensures |r| == |s| + 1
    ensures multiset(r) == multiset(s) + multiset{x}
    ensures r[0] == x || (s != [] && r[0] == s[0])
  {
    if s == [] then [x]
    else if key(s[0]) >= key(x) then
      var rest := Insert(x, s[1..], key);
      assert s == [s[0]] + s[1..];
      [s[0]] + rest
    else [x] + s
  }

  /** Insertion into a sorted sequence keeps it sorted. */
  lemma {:induction false} InsertSorted<T>(x: T, s: seq<T>, key: T -> real)
    requires SortedDesc(s, key)
    ensures SortedDesc(Insert(x, s, key), key)
  {
    if s == [] {
    } else if key(s[0]) >= key(x) {
      SortedTail(s, key);
      var rest := Insert(x, s[1..], key);
      InsertSorted(x, s[1..], key);
      assert rest[0] == x || rest[0] == s[1..][0];
      SortedCons(s[0], rest, key);
    } else {
      SortedCons(x, s, key);
    }
  }

  lemma ConcatAssoc<T>(a: seq<T>, b: seq<T>, c: seq<T>)
    ensures a + (b + c) == (a + b) + c
  {
  }

  /** The elements of `[a] + t` with key `k`: `a` when it has that key, then those of `t`. */
  lemma WithKeyCons<T>(a: T, t: seq<T>, key: T -> real, k: real)
    ensures WithKey([a] + t, key, k) == (if key(a) == k then [a] else []) + WithKey(t, key, k)
  {
    assert ([a] + t)[0] == a;
    assert ([a] + t)[1..] == t;
  }

  /** `x` passes over a head whose key is at least its own: the head's run is untouched. */
  lemma InsertWithKeyPast<T>(x: T, s: seq<T>, key: T -> real, k: real)
    requires s != [] && key(s[0]) >= key(x)
    requires WithKey(Insert(x, s[1..], key), key, k) ==
      WithKey(s[1..], key, k) + (if key(x) == k then [x] else [])
    ensures WithKey(Insert(x, s, key), key, k) ==
      WithKey(s, key, k) + (if key(x) == k then [x] else [])
  {
    var rest := Insert(x, s[1..], key);
    var head: seq<T> := if key(s[0]) == k then [s[0]] else [];
    var tail: seq<T> := if key(x) == k then [x] else [];
    var w := WithKey(s[1..], key, k);
    assert Insert(x, s, key) == [s[0]] + rest;
    WithKeyCons(s[0], rest, key, k);
    assert WithKey(Insert(x, s, key), key, k) == head + (w + tail);
    assert WithKey(s, key, k) == head + w;
    ConcatAssoc(head, w, tail);
  }

  /** `x` stops before a head with a smaller key, ahead of no element of its own key. */
  lemma InsertWithKeyHere<T>(x: T, s: seq<T>, key: T -> real, k: real)
    requires s == [] || key(s[0]) < key(x)
    requires key(x) == k ==> WithKey(s, key, k) == []
    ensures WithKey(Insert(x, s, key), key, k) ==
      WithKey(s, key, k) + (if key(x) == k then [x] else [])
  {
    assert Insert(x, s, key) == [x] + s;
    WithKeyCons(x, s, key, k);
  }

  /** Inserting `x` appends it to the run of its own key and leaves the other runs alone. */
  lemma {:induction false} InsertWithKey<T>(x: T, s: seq<T>, key: T -> real, k: real)
    requires SortedDesc(s, key)
    ensures WithKey(Insert(x, s, key), key, k) ==
      WithKey(s, key, k) + (if key(x) == k then [x] else [])
  {
    if s != [] && key(s[0]) >= key(x) {
      SortedTail(s, key);
      InsertWithKey(x, s[1..], key, k);
      InsertWithKeyPast(x, s, key, k);
    } else {
      if key(x) == k {
        WithKeyBelow(s, key, k);
      }
      InsertWithKeyHere(x, s, key, k);
    }
  }

  /** The stable descending sort, by insertion of each element in turn. */
  function SortDesc<T>(s: seq<T>, key: T -> real): (r: seq<T>)
    ensures |r| == |s|
    ensures multiset(r) == multiset(s)
    ensures SortedDesc(r, key)
  {
    if s == [] then []
    else
      var init := s[..|s| - 1];
      assert s == init + [s[|s| - 1]];
      InsertSorted(s[|s| - 1], SortDesc(init, key), key);
      Insert(s[|s| - 1], SortDesc(init, key), key)
  }

  /** Stability: for every key, the elements with that key come out in input order. */
  lemma {:induction false} SortDescStable<T>(s: seq<T>, key: T -> real, k: real)
    ensures WithKey(SortDesc(s, key), key, k) == WithKey(s, key, k)
  {
    if s != [] {
      var init, last := s[..|s| - 1], s[|s| - 1];
      var sortedInit := SortDesc(init, key);
      assert SortDesc(s, key) == Insert(last, sortedInit, key);
      SortDescStable(init, key, k);
      InsertWithKey(last, sortedInit, key, k);
      assert s == init + [last];
      WithKeyAppend(init, [last], key, k);
      assert WithKey([last], key, k) == (if key(last) == k then [last] else []) by {
        assert [last][1..] == [];
      }
    }
  }
}
