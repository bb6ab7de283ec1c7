/** Sequence combinators matching Ruby's Enumerable methods used by the analyst:
    find_all, map, flatten, reduce, max and the key order of group_by. */
module Seqs {
  import opened Wrappers

  /** `find_all`: the elements of `s` satisfying `p`, in their original order. */
  function Filter<T(==,!new)>(s: seq<T>, p: T -> bool): (r: seq<T>)
    ensures |r| <= |s|
    ensures forall x {:trigger x in r} :: x in r <==> x in s && p(x)
    ensures forall x {:trigger multiset(r)[x]} :: multiset(r)[x] == if p(x) then multiset(s)[x] else 0
  {
    if s == [] then []
    else
      assert s == [s[0]] + s[1..];
      if p(s[0]) then [s[0]] + Filter(s[1..], p) else Filter(s[1..], p)
  }

  /** `r` is obtained from `s` by deleting elements (order is kept). */
  predicate IsSubsequence<T(==)>(r: seq<T>, s: seq<T>)
    decreases |s|
  {
    r == [] || (s != [] && ((r[0] == s[0] && IsSubsequence(r[1..], s[1..])) || IsSubsequence(r, s[1..])))
  }

  lemma {:induction false} FilterIsSubsequence<T(!new)>(s: seq<T>, p: T -> bool)
    ensures IsSubsequence(Filter(s, p), s)
  {
    if s != [] {
      FilterIsSubsequence(s[1..], p);
      if p(s[0]) {
        assert Filter(s, p) == [s[0]] + Filter(s[1..], p);
        assert Filter(s, p)[1..] == Filter(s[1..], p);
      } else {
        var r := Filter(s, p);
        assert r == Filter(s[1..], p);
      }
    }
  }

  lemma {:induction false} SubsequenceTransitive<T>(a: seq<T>, b: seq<T>, c: seq<T>)
    requires IsSubsequence(a, b) && IsSubsequence(b, c)
    ensures IsSubsequence(a, c)
    decreases |c|
  {
    if a != [] {
      if IsSubsequence(b, c[1..]) {
        SubsequenceTransitive(a, b, c[1..]);
      } else if a[0] == b[0] && IsSubsequence(a[1..], b[1..]) {
        SubsequenceTransitive(a[1..], b[1..], c[1..]);
      } else {
        SubsequenceTransitive(a, b[1..], c[1..]);
      }
    }
  }

  /** Every element of a subsequence is an element of the sequence. */
  lemma {:induction false} SubsequenceMembership<T>(r: seq<T>, s: seq<T>, x: T)
    requires IsSubsequence(r, s) && x in r
    ensures x in s
    decreases |s|
  {
    if r[0] == s[0] && IsSubsequence(r[1..], s[1..]) {
      if x != r[0] {
        SubsequenceMembership(r[1..], s[1..], x);
      }
    } else {
      SubsequenceMembership(r, s[1..], x);
    }
  }

  /** Deleting elements never introduces a repetition. */
  lemma {:induction false} SubsequenceNoDuplicates<T>(r: seq<T>, s: seq<T>)
    requires IsSubsequence(r, s)
    ensures NoDuplicates(s) ==> NoDuplicates(r)
    decreases |s|
  {
    if r != [] && NoDuplicates(s) {
      assert NoDuplicates(s[1..]);
      if r[0] == s[0] && IsSubsequence(r[1..], s[1..]) {
        SubsequenceNoDuplicates(r[1..], s[1..]);
        forall j | 0 < j < |r| ensures r[0] != r[j] {
          assert r[j] == r[1..][j - 1];
          SubsequenceMembership(r[1..], s[1..], r[j]);
        }
      } else {
        SubsequenceNoDuplicates(r, s[1..]);
      }
    }
  }

  /** The key of a `[key, value]` pair, as `Hash#keys` sees it. */
  function PairKey<K, V>(p: (K, V)): K
  {
    p.0
  }

  /** `map`. */
  function MapSeq<T, U>(s: seq<T>, f: T -> U): (r: seq<U>)
    ensures |r| == |s|
    ensures forall i :: 0 <= i < |s| ==> r[i] == f(s[i])
  {
    if s == [] then [] else [f(s[0])] + MapSeq(s[1..], f)
  }

  /** `flatten` of an array of arrays. */
  function Flatten<T>(ss: seq<seq<T>>): seq<T>
  {
    if ss == [] then [] else ss[0] + Flatten(ss[1..])
  }

  lemma {:induction false} FlattenMembership<T>(ss: seq<seq<T>>, x: T)
    ensures x in Flatten(ss) <==> exists i :: 0 <= i < |ss| && x in ss[i]
  {
    if ss != [] {
      FlattenMembership(ss[1..], x);
      if x in Flatten(ss[1..]) {
        var i :| 0 <= i < |ss[1..]| && x in ss[1..][i];
        assert x in ss[i + 1];
      }
      if exists i :: 0 <= i < |ss| && x in ss[i] {
        var i :| 0 <= i < |ss| && x in ss[i];
        if i > 0 { assert x in ss[1..][i - 1]; }
      }
    }
  }

  /** The sum of `f` over `s`. */
  function SumOf<T>(s: seq<T>, f: T -> int): int
  {
    if s == [] then 0 else f(s[0]) + SumOf(s[1..], f)
  }

  lemma {:induction false} SumOfNonNegative<T>(s: seq<T>, f: T -> int)
    requires forall x :: x in s ==> f(x) >= 0
    ensures SumOf(s, f) >= 0
  {
    if s != [] { SumOfNonNegative(s[1..], f); }
  }

  lemma MultiplyStep(n: int, k: int)
    ensures n * k == (n - 1) * k + k
  {
  }

  lemma {:induction false} SumOfAtLeast<T>(s: seq<T>, f: T -> int, lo: int)
    requires forall x :: x in s ==> lo <= f(x)
    ensures |s| * lo <= SumOf(s, f)
  {
    if s != [] {
      var n := |s|;
      assert s[0] in s;
      assert forall x :: x in s[1..] ==> x in s;
      SumOfAtLeast(s[1..], f, lo);
      MultiplyStep(n, lo);
    }
  }

  lemma {:induction false} SumOfAtMost<T>(s: seq<T>, f: T -> int, hi: int)
    requires forall x :: x in s ==> f(x) <= hi
    ensures SumOf(s, f) <= |s| * hi
  {
    if s != [] {
      var n := |s|;
      assert s[0] in s;
      assert forall x :: x in s[1..] ==> x in s;
      SumOfAtMost(s[1..], f, hi);
      MultiplyStep(n, hi);
    }
  }

  /** `reduce(acc) { |a, x| step(a, x) }`: a left fold. */
  function Reduce<T>(acc: int, s: seq<T>, step: (int, T) -> int): int
    decreases |s|
  {
    if s == [] then acc else Reduce(step(acc, s[0]), s[1..], step)
  }

  /** A fold whose step adds `f(x)` computes the sum of `f`. */
  lemma {:induction false} ReduceIsSum<T>(acc: int, s: seq<T>, step: (int, T) -> int, f: T -> int)
    requires forall a, x :: step(a, x) == a + f(x)
    ensures Reduce(acc, s, step) == acc + SumOf(s, f)
    decreases |s|
  {
    if s != [] { ReduceIsSum(step(acc, s[0]), s[1..], step, f); }
  }

  /** A fold whose step adds `f(x)` only when `p(x)` sums `f` over the elements that pass `p`. */
  lemma {:induction false} GuardedReduceIsFilteredSum<T(!new)>(acc: int, s: seq<T>, step: (int, T) -> int, p: T -> bool, f: T -> int)
    requires forall a, x :: step(a, x) == if p(x) then a + f(x) else a
    ensures Reduce(acc, s, step) == acc + SumOf(Filter(s, p), f)
    decreases |s|
  {
    if s != [] {
      GuardedReduceIsFilteredSum(step(acc, s[0]), s[1..], step, p, f);
    }
  }

  /** `max` of a non-empty array. */
  function MaxOf(s: seq<int>): (m: int)
    requires |s| > 0
    ensures m in s
    ensures forall x :: x in s ==> x <= m
  {
    if |s| == 1 then s[0]
    else
      assert s == [s[0]] + s[1..];
      var rest := MaxOf(s[1..]);
      if s[0] >= rest then s[0] else rest
  }

  predicate NoDuplicates<T(==)>(s: seq<T>)
  {
    forall i, j :: 0 <= i < j < |s| ==> s[i] != s[j]
  }

  /** The distinct elements of `xs` in order of first appearance: the key order of a Ruby
      Hash built by `group_by` or by successive `h[k] += v` upserts. */
  function Distinct<T(==,!new)>(xs: seq<T>): (r: seq<T>)
    ensures forall x {:trigger x in r} :: x in r <==> x in xs
    ensures NoDuplicates(r)
  {
    if xs == [] then []
    else
      var d := Distinct(xs[..|xs| - 1]);
      assert xs == xs[..|xs| - 1] + [xs[|xs| - 1]];
      if xs[|xs| - 1] in d then d else d + [xs[|xs| - 1]]
  }

  /** The predicate "`key(x)` equals `k`": the test of every `find_all_by_<key>(k)`. */
  function HasKey<T, K(==)>(key: T -> K, k: K): T -> bool
  {
    x => key(x) == k
  }

  function Not<T>(p: T -> bool): T -> bool
  {
    x => !p(x)
  }

  /** `find_all_by_<key>(k)` of a repository: the records whose key is `k`, in order. */
  function FindAllBy<T(==,!new), K(==)>(s: seq<T>, key: T -> K, k: K): (r: seq<T>)
    ensures |r| <= |s|
    ensures forall x {:trigger x in r} :: x in r <==> x in s && key(x) == k
    ensures IsSubsequence(r, s)
  {
    FilterIsSubsequence(s, HasKey(key, k));
    Filter(s, HasKey(key, k))
  }

  /** The keys of `s.group_by(&key)`, in order of first appearance. */
  function KeysOf<T, K(==,!new)>(s: seq<T>, key: T -> K): (r: seq<K>)
    ensures forall k {:trigger k in r} :: k in r <==> exists x :: x in s && key(x) == k
    ensures NoDuplicates(r)
  {
    var ks := MapSeq(s, key);
    forall k | k in ks ensures exists x :: x in s && key(x) == k {
      var i :| 0 <= i < |ks| && ks[i] == k;
      assert s[i] in s;
    }
    forall k | exists x :: x in s && key(x) == k ensures k in ks {
      var x :| x in s && key(x) == k;
      var i :| 0 <= i < |s| && s[i] == x;
      assert ks[i] == k;
    }
    Distinct(ks)
  }

  /** The sizes of the groups of `s` under `key`, one per entry of `keys`. */
  function CountsPerKey<T(==,!new), K(==)>(keys: seq<K>, s: seq<T>, key: T -> K): (r: seq<int>)
    ensures |r| == |keys|
    ensures forall i :: 0 <= i < |keys| ==> r[i] == |FindAllBy(s, key, keys[i])|
  {
    if keys == [] then [] else [|FindAllBy(s, key, keys[0])|] + CountsPerKey(keys[1..], s, key)
  }

  /** The sum of an array of integers. */
  function Total(xs: seq<int>): int
  {
    SumOf(xs, x => x)
  }

  lemma TotalCons(xs: seq<int>)
    requires xs != []
    ensures Total(xs) == xs[0] + Total(xs[1..])
  {
  }

  lemma {:induction false} FilterPartition<T(!new)>(s: seq<T>, p: T -> bool)
    ensures |Filter(s, p)| + |Filter(s, Not(p))| == |s|
  {
    if s != [] { FilterPartition(s[1..], p); }
  }

  lemma {:induction false} FilterKeepsAll<T(!new)>(s: seq<T>, p: T -> bool)
    requires forall x :: x in s ==> p(x)
    ensures Filter(s, p) == s
  {
    if s != [] {
      assert forall x :: x in s[1..] ==> x in s;
      FilterKeepsAll(s[1..], p);
    }
  }

  lemma {:induction false} FilterKeepsNone<T(!new)>(s: seq<T>, p: T -> bool)
    requires forall x :: x in s ==> !p(x)
    ensures Filter(s, p) == []
  {
    if s != [] {
      assert forall x :: x in s[1..] ==> x in s;
      FilterKeepsNone(s[1..], p);
    }
  }

  /** A sequence without members is empty. */
  lemma NoMemberMeansEmpty<T(!new)>(s: seq<T>)
    requires forall x :: x !in s
    ensures s == []
  {
    var never := (x: T) => false;
    FilterKeepsAll(s, never);
    FilterKeepsNone(s, never);
  }

  /** Filtering first by a weaker test changes nothing. */
  lemma {:induction false} FilterOfFilter<T(!new)>(s: seq<T>, p: T -> bool, q: T -> bool)
    requires forall x :: x in s && p(x) ==> q(x)
    ensures Filter(Filter(s, q), p) == Filter(s, p)
  {
    if s != [] {
      assert forall x :: x in s[1..] ==> x in s;
      FilterOfFilter(s[1..], p, q);
    }
  }

  /** When every key of `s` is listed once in `keys`, the group sizes add up to `|s|`. */
  lemma {:induction false} CountsPerKeyTotal<T(!new), K(!new)>(keys: seq<K>, s: seq<T>, key: T -> K)
    requires NoDuplicates(keys)
    requires forall x :: x in s ==> key(x) in keys
    ensures Total(CountsPerKey(keys, s, key)) == |s|
  {
    if keys == [] {
      NoMemberMeansEmpty(s);
    } else {
      var k := keys[0];
      var rest := Filter(s, Not(HasKey(key, k)));
      FilterPartition(s, HasKey(key, k));
      forall x | x in rest ensures key(x) in keys[1..] {
        var i :| 0 <= i < |keys| && keys[i] == key(x);
        assert i != 0;
        assert keys[1..][i - 1] == key(x);
      }
      assert NoDuplicates(keys[1..]) by {
        forall i, j | 0 <= i < j < |keys[1..]| ensures keys[1..][i] != keys[1..][j] {
          assert keys[1..][i] == keys[i + 1] && keys[1..][j] == keys[j + 1];
        }
      }
      CountsPerKeyTotal(keys[1..], rest, key);
      var a := CountsPerKey(keys[1..], s, key);
      var b := CountsPerKey(keys[1..], rest, key);
      forall i | 0 <= i < |a| ensures a[i] == b[i] {
        assert keys[1..][i] == keys[i + 1] && keys[i + 1] != k;
        FilterOfFilter(s, HasKey(key, keys[i + 1]), Not(HasKey(key, k)));
      }
      assert a == b;
    }
  }

  /** `any?`. */
  function Any<T>(s: seq<T>, p: T -> bool): bool
  {
    s != [] && (p(s[0]) || Any(s[1..], p))
  }

  /** `all?`. */
  function All<T>(s: seq<T>, p: T -> bool): bool
  {
    s == [] || (p(s[0]) && All(s[1..], p))
  }

  /** `any?` holds exactly when some element passes. */
  lemma {:induction false} AnyIffExists<T>(s: seq<T>, p: T -> bool)
    ensures Any(s, p) <==> exists i :: 0 <= i < |s| && p(s[i])
  {
    if s != [] {
      AnyIffExists(s[1..], p);
      if exists i :: 0 <= i < |s| && p(s[i]) {
        var i :| 0 <= i < |s| && p(s[i]);
        if i > 0 { assert p(s[1..][i - 1]); }
      }
    }
  }

  /** `all?` of the negated test is the negation of `any?`. */
  lemma {:induction false} AllIsNotAny<T>(s: seq<T>, p: T -> bool, q: T -> bool)
    requires forall x :: q(x) == !p(x)
    ensures All(s, q) == !Any(s, p)
  {
    if s != [] { AllIsNotAny(s[1..], p, q); }
  }

  /** The position of the first element passing `p`: how `Hash#key` finds its key. */
  function FirstIndexWhere<T>(s: seq<T>, p: T -> bool): (r: Option<nat>)
    ensures r.Some? ==> r.value < |s| && p(s[r.value]) && forall j :: 0 <= j < r.value ==> !p(s[j])
    ensures r.None? ==> forall j :: 0 <= j < |s| ==> !p(s[j])
  {
    if s == [] then None
    else if p(s[0]) then Some(0)
    else match FirstIndexWhere(s[1..], p)
      case None => None
      case Some(i) => Some(i + 1)
  }

  /** The position of the last element passing `p`: the entry that survives when
      `to_h` meets the same key again. */
  function LastIndexWhere<T>(s: seq<T>, p: T -> bool): (r: Option<nat>)
    ensures r.Some? ==> r.value < |s| && p(s[r.value]) && forall j :: r.value < j < |s| ==> !p(s[j])
    ensures r.None? ==> forall j :: 0 <= j < |s| ==> !p(s[j])
  {
    if s == [] then None
    else if p(s[|s| - 1]) then Some(|s| - 1)
    else LastIndexWhere(s[..|s| - 1], p)
  }

  /** An element is in `s.map(&f)` exactly when it is the image of an element of `s`. */
  lemma MapSeqMembership<T, U>(s: seq<T>, f: T -> U, y: U)
    ensures y in MapSeq(s, f) <==> exists x :: x in s && y == f(x)
  {
    var r := MapSeq(s, f);
    if y in r {
      var i :| 0 <= i < |r| && r[i] == y;
      assert s[i] in s;
    }
    if exists x :: x in s && y == f(x) {
      var x :| x in s && y == f(x);
      var i :| 0 <= i < |s| && s[i] == x;
      assert r[i] == y;
    }
  }

  /** No element of `s` has a larger key than `x`. */
  predicate IsMaximal<T>(s: seq<T>, key: T -> int, x: T)
  {
    forall j :: 0 <= j < |s| ==> key(s[j]) <= key(x)
  }

  /** `s.map(&key).max` of a non-empty `s`. */
  function MaxKey<T>(s: seq<T>, key: T -> int): (m: int)
    requires s != []
    ensures exists i :: 0 <= i < |s| && key(s[i]) == m
    ensures forall i :: 0 <= i < |s| ==> key(s[i]) <= m
  {
    var keys := MapSeq(s, key);
    var m := MaxOf(keys);
    assert forall i :: 0 <= i < |s| ==> keys[i] in keys;
    m
  }

  /** The test "no element of `s` has a larger key". */
  function MaximalTest<T>(s: seq<T>, key: T -> int): T -> bool
  {
    x => IsMaximal(s, key, x)
  }

  /** Filters by two tests that agree on every element are equal. */
  lemma {:induction false} FilterCongruent<T(!new)>(s: seq<T>, p: T -> bool, q: T -> bool)
    requires forall x :: x in s ==> p(x) == q(x)
    ensures Filter(s, p) == Filter(s, q)
  {
    if s != [] {
      assert forall x :: x in s[1..] ==> x in s;
      FilterCongruent(s[1..], p, q);
    }
  }

  /** The group of largest key: `s.group_by(&key)[max]`. It keeps every element of largest
      key, repeats included, in the order of `s`. */
  function WithMaxKey<T(==,!new)>(s: seq<T>, key: T -> int): (r: seq<T>)
    requires s != []
    ensures r != [] && IsSubsequence(r, s)
    ensures forall x {:trigger x in r} :: x in r <==> x in s && IsMaximal(s, key, x)
    ensures r == Filter(s, MaximalTest(s, key))
  {
    var m := MaxKey(s, key);
    var i :| 0 <= i < |s| && key(s[i]) == m;
    assert s[i] in FindAllBy(s, key, m);
    FilterCongruent(s, HasKey(key, m), MaximalTest(s, key));
    FindAllBy(s, key, m)
  }

  /** The position of the first element of largest key. */
  function FirstWithMaxKey<T>(s: seq<T>, key: T -> int): (r: int)
    requires s != []
    ensures 0 <= r < |s| && IsMaximal(s, key, s[r])
    ensures forall j :: 0 <= j < r ==> key(s[j]) < key(s[r])
  {
    var m := MaxKey(s, key);
    match FirstIndexWhere(s, HasKey(key, m))
    case Some(i) => i
    case None => assert false; 0
  }

  /** The position of the last element of largest key. */
  function LastWithMaxKey<T>(s: seq<T>, key: T -> int): (r: int)
    requires s != []
    ensures 0 <= r < |s| && IsMaximal(s, key, s[r])
    ensures forall j :: r < j < |s| ==> key(s[j]) < key(s[r])
  {
    var m := MaxKey(s, key);
    match LastIndexWhere(s, HasKey(key, m))
    case Some(i) => i
    case None => assert false; 0
  }
}
