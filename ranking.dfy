/** `sort_by { key }.reverse` and the `[0..num - 1]` slice used by the revenue rankings. */
module Ranking {

  predicate AscendingBy<T>(s: seq<T>, key: T -> int)
  {
    forall i, j :: 0 <= i < j < |s| ==> key(s[i]) <= key(s[j])
  }

  predicate DescendingBy<T>(s: seq<T>, key: T -> int)
  {
    forall i, j :: 0 <= i < j < |s| ==> key(s[i]) >= key(s[j])
  }

  /** Inserts `x` into the ascending `s` before the first element whose key is not smaller. */
  function InsertBy<T>(x: T, s: seq<T>, key: T -> int): (r: seq<T>)
    requires AscendingBy(s, key)
    ensures multiset(r) == multiset(s) + multiset{x}
    ensures AscendingBy(r, key)
    ensures |r| == |s| + 1
  {
    if s == [] || key(x) <= key(s[0]) then [x] + s
    else
      assert s == [s[0]] + s[1..];
      var t := InsertBy(x, s[1..], key);
      LowerBoundKept(s[0], x, s[1..], t, key);
      [s[0]] + t
  }

  /** Every element of `t`, a rearrangement of `rest` plus `x`, has a key at least `key(first)`. */
  lemma LowerBoundKept<T>(first: T, x: T, rest: seq<T>, t: seq<T>, key: T -> int)
    requires key(first) <= key(x)
    requires forall j :: 0 <= j < |rest| ==> key(first) <= key(rest[j])
    requires multiset(t) == multiset(rest) + multiset{x}
    ensures AscendingBy(t, key) ==> AscendingBy([first] + t, key)
    ensures forall k :: 0 <= k < |t| ==> key(first) <= key(t[k])
  {
    forall k | 0 <= k < |t|
      ensures key(first) <= key(t[k])
    {
      assert t[k] in multiset(t);
      if t[k] != x {
        assert t[k] in multiset(rest);
        var j :| 0 <= j < |rest| && rest[j] == t[k];
      }
    }
  }

  /** Ruby's `sort_by(&key)`, ascending by key. Ruby does not promise an order among equal
      keys; this insertion sort is one admissible outcome. */
  function SortBy<T>(s: seq<T>, key: T -> int): (r: seq<T>)
    ensures multiset(r) == multiset(s)
    ensures AscendingBy(r, key)
    ensures |r| == |s|
  {
    if s == [] then []
    else
      assert s == [s[0]] + s[1..];
      InsertBy(s[0], SortBy(s[1..], key), key)
  }

  /** Ruby's `reverse`. */
  function Reverse<T>(s: seq<T>): (r: seq<T>)
    ensures |r| == |s|
    ensures forall i :: 0 <= i < |s| ==> r[i] == s[|s| - 1 - i]
  {
    if s == [] then [] else Reverse(s[1..]) + [s[0]]
  }

  lemma {:induction false} ReversePreservesMultiset<T>(s: seq<T>)
    ensures multiset(Reverse(s)) == multiset(s)
  {
    if s != [] {
      ReversePreservesMultiset(s[1..]);
      assert s == [s[0]] + s[1..];
    }
  }

  /** `sort_by(&key).reverse`: a permutation of `s` in non-increasing key order. */
  function RankDescending<T>(s: seq<T>, key: T -> int): (r: seq<T>)
    ensures multiset(r) == multiset(s)
    ensures DescendingBy(r, key)
  {
    var sorted := SortBy(s, key);
    ReversePreservesMultiset(sorted);
    Reverse(sorted)
  }

  /** Ruby's `s[0..last]` for an inclusive range starting at 0: a negative `last` counts
      from the end, and an end before the start yields `[]`. */
  function SliceFromZero<T>(s: seq<T>, last: int): (r: seq<T>)
    ensures last >= 0 ==> |r| == if last + 1 < |s| then last + 1 else |s|
    ensures last < 0 ==> |r| == if last + |s| + 1 > 0 then last + |s| + 1 else 0
    ensures r == s[..|r|]
  {
    var len := if last >= 0 then (if last + 1 < |s| then last + 1 else |s|)
               else (if last + |s| + 1 > 0 then last + |s| + 1 else 0);
    s[..len]
  }
}
