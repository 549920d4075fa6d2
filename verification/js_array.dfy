/** The JavaScript array operations the dashboards use on their metric
    lists: `slice` with its clamping of negative and out-of-range indices,
    and `slice().reverse()`. */
module JsArray {

  /** Where a `slice` index lands in an array of length `n`: a negative
      index counts from the end, and both ends are clamped. */
  function Clamp(n: nat, i: int): (k: nat)
    ensures k <= n
    ensures 0 <= i <= n ==> k == i
    ensures i > n ==> k == n
    ensures i < 0 ==> k == (if n + i < 0 then 0 else n + i)
  {
    if i < 0 then (if n + i < 0 then 0 else n + i) else if i > n then n else i
  }

  /** `s.slice(start, end)`: the elements from the clamped start up to the
      clamped end, none when the end comes first. */
  function Slice<T>(s: seq<T>, start: int, end: int): (r: seq<T>)
    ensures |r| == (if Clamp(|s|, start) <= Clamp(|s|, end) then Clamp(|s|, end) - Clamp(|s|, start) else 0)
    ensures forall k :: 0 <= k < |r| ==> r[k] == s[Clamp(|s|, start) + k]
  {
    var a := Clamp(|s|, start);
    var b := Clamp(|s|, end);
    if a <= b then s[a..b] else []
  }

  /** `s.slice(-n)` for a positive `n`: the last `n` elements, or all of
      them when there are fewer. */
  lemma SliceLast<T>(s: seq<T>, n: nat)
    requires n > 0
    ensures Slice(s, -(n as int), |s|) == if |s| <= n then s else s[|s| - n..]
  {
  }

  /** `s.slice().reverse()`: a reversed copy. */
  function Reverse<T>(s: seq<T>): (r: seq<T>)
    ensures |r| == |s|
    ensures forall i :: 0 <= i < |s| ==> r[i] == s[|s| - 1 - i]
  {
    if |s| == 0 then [] else Reverse(s[1..]) + [s[0]]
  }

  /** Reversing twice gives the array back. */
  lemma ReverseReverse<T>(s: seq<T>)
    ensures Reverse(Reverse(s)) == s
  {
  }
}
