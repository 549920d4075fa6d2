/** `d3.group(items, key)` as the dashboards use it on metrics and their
    project names: one group per distinct key, in the order keys first
    appear, each holding that key's items in order. Also the size of
    `new Set(items.map(key))`. */
module Grouping {

  /** The distinct keys, in order of first appearance. */
  function Keys<T>(s: seq<T>, key: T -> string): (ks: seq<string>)
    ensures forall i, j :: 0 <= i < j < |ks| ==> ks[i] != ks[j]
    ensures forall k :: k in ks <==> exists i :: 0 <= i < |s| && key(s[i]) == k
  {
    if |s| == 0 then []
    else
      var ks := Keys(s[..|s| - 1], key);
      assert forall i :: 0 <= i < |s| - 1 ==> s[..|s| - 1][i] == s[i];
      if key(s[|s| - 1]) in ks then ks else ks + [key(s[|s| - 1])]
  }

  /** The items with key `k`, in order. */
  function Members<T>(s: seq<T>, key: T -> string, k: string): (r: seq<T>)
    ensures forall i :: 0 <= i < |r| ==> r[i] in s && key(r[i]) == k
    ensures forall i :: 0 <= i < |s| && key(s[i]) == k ==> s[i] in r
    ensures |r| <= |s|
  {
    if |s| == 0 then []
    else
      var rest := Members(s[..|s| - 1], key, k);
      assert s == s[..|s| - 1] + [s[|s| - 1]];
      if key(s[|s| - 1]) == k then rest + [s[|s| - 1]] else rest
  }

  /** The groups: each distinct key with its items. */
  function Group<T>(s: seq<T>, key: T -> string): (g: seq<(string, seq<T>)>)
    ensures |g| == |Keys(s, key)|
    ensures forall i :: 0 <= i < |g| ==> g[i] == (Keys(s, key)[i], Members(s, key, Keys(s, key)[i]))
  {
    var ks := Keys(s, key);
    seq(|ks|, i requires 0 <= i < |ks| => (ks[i], Members(s, key, ks[i])))
  }

  /** The total size of the groups of keys `ks`. */
  function Total<T>(ks: seq<string>, s: seq<T>, key: T -> string): nat {
    if |ks| == 0 then 0 else Total(ks[..|ks| - 1], s, key) + |Members(s, key, ks[|ks| - 1])|
  }

  /** Adding an item adds one to the total of any distinct keys that
      include its key, and nothing otherwise. */
  lemma {:induction false} TotalAppend<T>(ks: seq<string>, s: seq<T>, x: T, key: T -> string)
    requires forall i, j :: 0 <= i < j < |ks| ==> ks[i] != ks[j]
    ensures Total(ks, s + [x], key) == Total(ks, s, key) + (if key(x) in ks then 1 else 0)
    decreases |ks|
  {
    if |ks| > 0 {
      var init := ks[..|ks| - 1];
      var last := ks[|ks| - 1];
      TotalAppend(init, s, x, key);
      assert (s + [x])[..|s + [x]| - 1] == s;
      assert key(x) in ks <==> key(x) in init || key(x) == last;
      assert key(x) == last ==> key(x) !in init;
    }
  }

  /** Keys that no item has hold no items. */
  lemma MembersOfAbsentKey<T>(s: seq<T>, key: T -> string, k: string)
    requires forall i :: 0 <= i < |s| ==> key(s[i]) != k
    ensures Members(s, key, k) == []
  {
  }

  /** Every item is in exactly one group: the group sizes add up to the
      number of items. */
  lemma {:induction false} GroupSizesSum<T>(s: seq<T>, key: T -> string)
    ensures Total(Keys(s, key), s, key) == |s|
  {
    if |s| > 0 {
      var init := s[..|s| - 1];
      var x := s[|s| - 1];
      assert s == init + [x];
      GroupSizesSum(init, key);
      TotalAppend(Keys(init, key), init, x, key);
      if key(x) !in Keys(init, key) {
        MembersOfAbsentKey(init, key, key(x));
        var ks := Keys(init, key) + [key(x)];
        assert ks[..|ks| - 1] == Keys(init, key);
        assert Members(s, key, key(x)) == [x];
      }
    }
  }

  /** `new Set(items.map(key))`. */
  function Distinct<T>(s: seq<T>, key: T -> string): set<string> {
    set i | 0 <= i < |s| :: key(s[i])
  }

  /** A sequence without repeats has as many elements as its set. */
  lemma {:induction false} DistinctSize(ks: seq<string>)
    requires forall i, j :: 0 <= i < j < |ks| ==> ks[i] != ks[j]
    ensures |set k | k in ks| == |ks|
  {
    if |ks| > 0 {
      var init := ks[..|ks| - 1];
      DistinctSize(init);
      assert (set k | k in ks) == (set k | k in init) + {ks[|ks| - 1]};
    }
  }

  /** The set of keys has one element per group. */
  lemma DistinctCountsGroups<T>(s: seq<T>, key: T -> string)
    ensures |Distinct(s, key)| == |Group(s, key)|
  {
    var ks := Keys(s, key);
    DistinctSize(ks);
    assert Distinct(s, key) == set k | k in ks;
  }
}
