/**
  A stable sort into non-increasing order of a key (a pair of integers compared
  lexicographically): the behaviour of Python's `list.sort(key=..., reverse=True)`, which
  keeps elements with equal keys in their original order.
*/
module StableSort {

  /** The sort key: compared first by `primary`, then by `secondary`. */
  datatype RankKey = RankKey(primary: int, secondary: int)

  /** `a` sorts strictly after `b`: it is lexicographically smaller. */
  predicate Below(a: RankKey, b: RankKey) {
    a.primary < b.primary || (a.primary == b.primary && a.secondary < b.secondary)
  }

  /** Non-increasing by key: no element is strictly below a later one. */
  predicate Ranked<T>(s: seq<T>, key: T -> RankKey) {
    forall i, j :: 0 <= i < j < |s| ==> !Below(key(s[i]), key(s[j]))
  }

  /** The elements of `s` whose key is `k`, in their order in `s`. */
  function WithKey<T>(s: seq<T>, key: T -> RankKey, k: RankKey): seq<T> {
    if s == [] then []
    else (if key(s[0]) == k then [s[0]] else []) + WithKey(s[1..], key, k)
  }

  lemma {:induction false} WithKeyAppend<T>(a: seq<T>, b: seq<T>, key: T -> RankKey, k: RankKey)
    ensures WithKey(a + b, key, k) == WithKey(a, key, k) + WithKey(b, key, k)
  {
    if a == [] {
      assert a + b == b;
    } else {
      var head := if key(a[0]) == k then [a[0]] else [];
      assert (a + b)[0] == a[0];
      assert (a + b)[1..] == a[1..] + b;
      WithKeyAppend(a[1..], b, key, k);
      calc {
        WithKey(a + b, key, k);
        head + WithKey(a[1..] + b, key, k);
        head + (WithKey(a[1..], key, k) + WithKey(b, key, k));
        (head + WithKey(a[1..], key, k)) + WithKey(b, key, k);
      }
    }
  }

  lemma {:induction false} WithKeyNone<T>(s: seq<T>, key: T -> RankKey, k: RankKey)
    requires forall i :: 0 <= i < |s| ==> key(s[i]) != k
    ensures WithKey(s, key, k) == []
  {
    if s != [] {
      WithKeyNone(s[1..], key, k);
    }
  }

  /** Puts `x` in front of the first element that sorts strictly after it, hence behind every
      element with an equal key. */
  function Insert<T>(x: T, s: seq<T>, key: T -> RankKey): (r: seq<T>)
    ensures multiset(r) == multiset(s) + multiset{x}
  {
    if s == [] then [x]
    else if Below(key(s[0]), key(x)) then [x] + s
    else
      assert s == [s[0]] + s[1..];
      [s[0]] + Insert(x, s[1..], key)
  }

  lemma {:induction false} InsertRanked<T>(x: T, s: seq<T>, key: T -> RankKey)
    requires Ranked(s, key)
    ensures Ranked(Insert(x, s, key), key)
  {
    if s != [] && !Below(key(s[0]), key(x)) {
      var rest := Insert(x, s[1..], key);
      InsertRanked(x, s[1..], key);
      forall j | 0 <= j < |rest|
        ensures !Below(key(s[0]), key(rest[j]))
      {
        assert rest[j] in multiset(rest);
        if rest[j] != x {
          assert rest[j] in multiset(s[1..]);
          var m :| 0 <= m < |s[1..]| && s[1..][m] == rest[j];
          assert s[m + 1] == rest[j];
        }
      }
      var r := [s[0]] + rest;
      forall i, j | 0 <= i < j < |r| ensures !Below(key(r[i]), key(r[j])) {
        if i > 0 {
          assert r[i] == rest[i - 1] && r[j] == rest[j - 1];
        } else {
          assert r[j] == rest[j - 1];
        }
      }
    }
  }

  /** Inserting in front of a ranked sequence whose head sorts after `x`: no element of the
      sequence shares `x`'s key. */
  lemma InsertInFrontStable<T>(x: T, s: seq<T>, key: T -> RankKey, k: RankKey)
    requires s != [] && Ranked(s, key) && Below(key(s[0]), key(x))
    ensures WithKey([x] + s, key, k) == WithKey(s, key, k) + (if key(x) == k then [x] else [])
  {
    assert ([x] + s)[0] == x;
    assert ([x] + s)[1..] == s;
    if key(x) == k {
      forall i | 0 <= i < |s| ensures key(s[i]) != k {
        if i > 0 { assert !Below(key(s[0]), key(s[i])); }
      }
      WithKeyNone(s, key, k);
    }
  }

  lemma WithKeyCons<T>(h: T, t: seq<T>, key: T -> RankKey, k: RankKey)
    ensures WithKey([h] + t, key, k) == (if key(h) == k then [h] else []) + WithKey(t, key, k)
  {
    assert ([h] + t)[0] == h;
    assert ([h] + t)[1..] == t;
  }

  lemma ConcatAssoc<T>(a: seq<T>, b: seq<T>, c: seq<T>)
    ensures a + (b + c) == (a + b) + c
  {
  }

  lemma {:induction false} InsertStable<T>(x: T, s: seq<T>, key: T -> RankKey, k: RankKey)
    requires Ranked(s, key)
    ensures WithKey(Insert(x, s, key), key, k) == WithKey(s, key, k) + (if key(x) == k then [x] else [])
  {
    if s == [] {
    } else if Below(key(s[0]), key(x)) {
      InsertInFrontStable(x, s, key, k);
    } else {
      var head := if key(s[0]) == k then [s[0]] else [];
      var added := if key(x) == k then [x] else [];
      var rest := Insert(x, s[1..], key);
      assert Insert(x, s, key) == [s[0]] + rest;
      WithKeyCons(s[0], rest, key, k);
      assert Ranked(s[1..], key);
      InsertStable(x, s[1..], key, k);
      assert WithKey(s, key, k) == head + WithKey(s[1..], key, k);
      ConcatAssoc(head, WithKey(s[1..], key, k), added);
    }
  }

  lemma {:induction false} InsertAtEnd<T>(x: T, s: seq<T>, key: T -> RankKey)
    requires forall i :: 0 <= i < |s| ==> !Below(key(s[i]), key(x))
    ensures Insert(x, s, key) == s + [x]
  {
    if s != [] {
      InsertAtEnd(x, s[1..], key);
      assert [s[0]] + (s[1..] + [x]) == s + [x];
    }
  }

  /** Sorts into non-increasing key order, keeping equal keys in input order. */
  function SortByKey<T>(s: seq<T>, key: T -> RankKey): (r: seq<T>)
    ensures multiset(r) == multiset(s)
    ensures Ranked(r, key)
  {
    if s == [] then []
    else
      var init := SortByKey(s[..|s| - 1], key);
      InsertRanked(s[|s| - 1], init, key);
      assert s == s[..|s| - 1] + [s[|s| - 1]];
      Insert(s[|s| - 1], init, key)
  }

  /** Stability: for every key, the elements with that key keep their relative order. */
  lemma {:induction false} SortStable<T>(s: seq<T>, key: T -> RankKey, k: RankKey)
    ensures WithKey(SortByKey(s, key), key, k) == WithKey(s, key, k)
  {
    if s != [] {
      var init := s[..|s| - 1];
      var last := s[|s| - 1];
      assert s == init + [last];
      SortSnoc(init, last, key);
      InsertStable(last, SortByKey(init, key), key, k);
      SortStable(init, key, k);
      assert WithKey([last], key, k) == (if key(last) == k then [last] else []) + WithKey([], key, k);
      WithKeyAppend(init, [last], key, k);
    }
  }

  /** Sorting a list with one more element inserts that element into the sorted rest. */
  lemma SortSnoc<T>(init: seq<T>, last: T, key: T -> RankKey)
    ensures SortByKey(init + [last], key) == Insert(last, SortByKey(init, key), key)
  {
    var s := init + [last];
    assert s[..|s| - 1] == init;
  }

  /** A single element is sorted as it is. */
  lemma SortSingleton<T>(x: T, key: T -> RankKey)
    ensures SortByKey([x], key) == [x]
  {
    assert [x][..0] == [];
  }

  /** Sorting a sequence that is already ranked changes nothing. */
  lemma {:induction false} SortRankedIsIdentity<T>(s: seq<T>, key: T -> RankKey)
    requires Ranked(s, key)
    ensures SortByKey(s, key) == s
  {
    if s != [] {
      var init := s[..|s| - 1];
      var last := s[|s| - 1];
      assert s == init + [last];
      assert Ranked(init, key);
      SortRankedIsIdentity(init, key);
      forall i | 0 <= i < |init| ensures !Below(key(init[i]), key(last)) {
        assert init[i] == s[i];
      }
      InsertAtEnd(last, init, key);
      SortSnoc(init, last, key);
    }
  }
}
