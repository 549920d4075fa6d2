/** Queries over a table kept as the sequence of its rows in insertion
    order: the first row matching a filter (`.filter(…).first()`), and
    SQLite's `OFFSET`/`LIMIT` window. */
module Rows {
  import opened Wrappers

  /** Index of the first row satisfying `p`. */
  function First<T>(s: seq<T>, p: T -> bool): (r: Option<nat>)
    ensures r.Some? ==> r.value < |s| && p(s[r.value])
    ensures r.Some? ==> forall j :: 0 <= j < r.value ==> !p(s[j])
    ensures r.None? ==> forall j :: 0 <= j < |s| ==> !p(s[j])
  {
    if |s| == 0 then None
    else if p(s[0]) then Some(0)
    else
      match First(s[1..], p)
      case None => None
      case Some(k) => Some(k + 1)
  }

  /** The id an integer primary key gives the next inserted row: one more
      than the largest id in use, and 1 in an empty table. A table whose
      ids are all negative, where SQLite would go below 1, cannot arise:
      every id in the tables modelled here was handed out by this function. */
  function NextId<T>(rows: seq<T>, id: T -> int): (r: int)
    ensures forall i :: 0 <= i < |rows| ==> id(rows[i]) < r
    ensures r >= 1
    ensures r == 1 || exists i :: 0 <= i < |rows| && r == id(rows[i]) + 1
  {
    if |rows| == 0 then 1
    else
      var rest := NextId(rows[1..], id);
      assert forall i :: 1 <= i < |rows| ==> rows[i] == rows[1..][i - 1];
      if id(rows[0]) < rest then rest else id(rows[0]) + 1
  }

  /** Where an `OFFSET` starts: SQLite reads a negative offset as zero. */
  function Start(n: nat, offset: int): (k: nat)
    ensures k <= n
    ensures 0 <= offset <= n ==> k == offset
  {
    if offset < 0 then 0 else if offset > n then n else offset
  }

  /** `.offset(offset).limit(limit)` on SQLite: rows from the offset on, at
      most `limit` of them; a negative limit means no limit. */
  function Window<T>(s: seq<T>, offset: int, limit: int): (r: seq<T>)
    ensures |r| == (if limit < 0 || |s| - Start(|s|, offset) <= limit then |s| - Start(|s|, offset) else limit)
    ensures forall k :: 0 <= k < |r| ==> r[k] == s[Start(|s|, offset) + k]
  {
    var start := Start(|s|, offset);
    if limit < 0 || |s| - start <= limit then s[start..] else s[start..start + limit]
  }

  /** A window with a non-negative offset and limit is a slice. */
  lemma WindowIsSlice<T>(s: seq<T>, offset: nat, limit: nat)
    ensures var start := if offset <= |s| then offset else |s|;
            var end := if start + limit <= |s| then start + limit else |s|;
            Window(s, offset, limit) == s[start..end]
  {
  }

  /** Consecutive windows tile the table: the first `a` rows followed by the
      next `b` are the first `a + b`. */
  lemma WindowsTile<T>(s: seq<T>, a: nat, b: nat)
    ensures Window(s, 0, a) + Window(s, a, b) == Window(s, 0, a + b)
  {
    var m := if a <= |s| then a else |s|;
    var n := if a + b <= |s| then a + b else |s|;
    WindowIsSlice(s, 0, a);
    WindowIsSlice(s, a, b);
    WindowIsSlice(s, 0, a + b);
    SlicesTile(s, m, n);
  }

  lemma SlicesTile<T>(s: seq<T>, m: nat, n: nat)
    requires m <= n <= |s|
    ensures s[0..m] + s[m..n] == s[0..n]
  {
  }
}
