/** Sorting of sequences by an integer key, as the dashboards do with
    timestamps: an insertion sort that keeps equal keys in their original
    order, with sortedness, permutation and stability proved. */
module Sorting {

  ghost predicate SortedBy<T>(s: seq<T>, key: T -> int) {
    forall i, j :: 0 <= i < j < |s| ==> key(s[i]) <= key(s[j])
  }

  /** Insert `x` after every element whose key is not greater than its own. */
  function Insert<T>(x: T, s: seq<T>, key: T -> int): (r: seq<T>)
    requires SortedBy(s, key)
    ensures SortedBy(r, key)
    ensures multiset(r) == multiset(s) + multiset{x}
    ensures |r| == |s| + 1
    ensures r[0] == x || (|s| > 0 && r[0] == s[0])
  {
    if |s| == 0 then [x]
    else if key(x) < key(s[0]) then [x] + s
    else
      var rest := Insert(x, s[1..], key);
      assert s == [s[0]] + s[1..];
      assert key(s[0]) <= key(rest[0]);
      [s[0]] + rest
  }

  /** `s` sorted ascending by `key`; equal keys keep their order (see
      `SortByStable`). */
  function SortBy<T>(s: seq<T>, key: T -> int): (r: seq<T>)
    ensures SortedBy(r, key)
    ensures multiset(r) == multiset(s)
    ensures |r| == |s|
  {
    if |s| == 0 then []
    else
      assert s == s[..|s| - 1] + [s[|s| - 1]];
      Insert(s[|s| - 1], SortBy(s[..|s| - 1], key), key)
  }

  /** The elements of `s` whose key is `k`, in their order in `s`. */
  function WithKey<T>(s: seq<T>, key: T -> int, k: int): (r: seq<T>)
    ensures |r| <= |s|
    ensures forall i :: 0 <= i < |r| ==> key(r[i]) == k
  {
    if |s| == 0 then [] else Pick(s[0], key, k) + WithKey(s[1..], key, k)
  }

  /** `[x]` when `x` has key `k`, otherwise nothing. */
  function Pick<T>(x: T, key: T -> int, k: int): (r: seq<T>)
    ensures |r| <= 1 && (r == [x] <==> key(x) == k)
  {
    if key(x) == k then [x] else []
  }

  lemma WithKeyCons<T>(y: T, t: seq<T>, key: T -> int, k: int)
    ensures WithKey([y] + t, key, k) == Pick(y, key, k) + WithKey(t, key, k)
  {
    assert ([y] + t)[1..] == t;
  }

  lemma {:induction false} WithKeyAppend<T>(a: seq<T>, b: seq<T>, key: T -> int, k: int)
    ensures WithKey(a + b, key, k) == WithKey(a, key, k) + WithKey(b, key, k)
    decreases |a|
  {
    if |a| == 0 {
      assert a + b == b;
    } else {
      assert a + b == [a[0]] + (a[1..] + b);
      WithKeyCons(a[0], a[1..] + b, key, k);
      WithKeyAppend(a[1..], b, key, k);
    }
  }

  /** No element of a list whose keys all exceed `k` has key `k`. */
  lemma {:induction false} WithKeyAbove<T>(s: seq<T>, key: T -> int, k: int)
    requires forall i :: 0 <= i < |s| ==> k < key(s[i])
    ensures WithKey(s, key, k) == []
    decreases |s|
  {
    if |s| > 0 {
      WithKeyAbove(s[1..], key, k);
    }
  }

  /** Inserting `x` puts it after every element with the same key. */
  lemma {:induction false} InsertStable<T>(x: T, s: seq<T>, key: T -> int, k: int)
    requires SortedBy(s, key)
    ensures WithKey(Insert(x, s, key), key, k) == WithKey(s, key, k) + Pick(x, key, k)
    decreases |s|
  {
    if |s| == 0 || key(x) < key(s[0]) {
      InsertInFront(x, s, key, k);
    } else {
      var rest := Insert(x, s[1..], key);
      assert Insert(x, s, key) == [s[0]] + rest;
      InsertStable(x, s[1..], key, k);
      WithKeyCons(s[0], rest, key, k);
      assert s == [s[0]] + s[1..];
      WithKeyCons(s[0], s[1..], key, k);
    }
  }

  /** Inserting in front of a list whose keys all exceed `x`'s. */
  lemma InsertInFront<T>(x: T, s: seq<T>, key: T -> int, k: int)
    requires SortedBy(s, key)
    requires |s| == 0 || key(x) < key(s[0])
    ensures WithKey(Insert(x, s, key), key, k) == WithKey(s, key, k) + Pick(x, key, k)
  {
    if |s| == 0 {
      assert Insert(x, s, key) == [x] + s;
    } else {
      assert Insert(x, s, key) == [x] + s;
      if key(x) == k {
        forall i | 0 <= i < |s| ensures k < key(s[i]) {
          assert key(s[0]) <= key(s[i]);
        }
        WithKeyAbove(s, key, k);
      }
    }
    WithKeyCons(x, s, key, k);
  }

  /** The sort is stable: for every key, the elements with that key come
      out in the order they went in. */
  lemma {:induction false} SortByStable<T>(s: seq<T>, key: T -> int, k: int)
    ensures WithKey(SortBy(s, key), key, k) == WithKey(s, key, k)
    decreases |s|
  {
    if |s| > 0 {
      var init, last := s[..|s| - 1], s[|s| - 1];
      assert s == init + [last];
      assert SortBy(s, key) == Insert(last, SortBy(init, key), key);
      SortByStable(init, key, k);
      InsertStable(last, SortBy(init, key), key, k);
      WithKeyAppend(init, [last], key, k);
      WithKeyCons(last, [], key, k);
      assert [last] + [] == [last];
    }
  }
}
