/** The `Array.prototype` methods the dashboard relies on, over `seq`:
    `filter`, `sort` with a descending numeric comparator (`(a, b) => key(b) -
    key(a)`) and `slice(0, n)`. */
module JsArray {

  /** `s.filter(keep)`: the elements that pass, in their original order. */
  function Filter<T>(s: seq<T>, keep: T -> bool): (r: seq<T>)
    ensures |r| <= |s|
    ensures forall i :: 0 <= i < |r| ==> r[i] in s && keep(r[i])
    ensures forall i :: 0 <= i < |s| && keep(s[i]) ==> s[i] in r
  {
    if s == [] then []
    else
      assert s == [s[0]] + s[1..];
      if keep(s[0]) then [s[0]] + Filter(s[1..], keep) else Filter(s[1..], keep)
  }

  /** Filtering works piece by piece, so the kept elements stay in order. */
  lemma {:induction false} FilterConcat<T>(a: seq<T>, b: seq<T>, keep: T -> bool)
    ensures Filter(a + b, keep) == Filter(a, keep) + Filter(b, keep)
  {
    if a == [] {
      assert a + b == b;
    } else {
      assert (a + b)[0] == a[0];
      assert (a + b)[1..] == a[1..] + b;
      FilterConcat(a[1..], b, keep);
    }
  }

  /** A filter that keeps everything its tighter partner keeps keeps at least as many. */
  lemma {:induction false} FilterMonotone<T>(s: seq<T>, keep: T -> bool, wider: T -> bool)
    requires forall x :: keep(x) ==> wider(x)
    ensures |Filter(s, keep)| <= |Filter(s, wider)|
  {
    if s != [] {
      FilterMonotone(s[1..], keep, wider);
    }
  }

  predicate SortedDesc<T>(s: seq<T>, key: T -> int) {
    forall i, j :: 0 <= i < j < |s| ==> key(s[i]) >= key(s[j])
  }

  /** Places `x` after every element whose key is at least its own. */
  function InsertDesc<T>(x: T, s: seq<T>, key: T -> int): (r: seq<T>)
    requires SortedDesc(s, key)
    ensures |r| == |s| + 1 && multiset(r) == multiset(s) + multiset{x}
    ensures key(r[0]) == key(x) || (s != [] && key(r[0]) == key(s[0]))
    ensures SortedDesc(r, key)
  {
    if s == [] then [x]
    else if key(s[0]) >= key(x) then
      var rest := InsertDesc(x, s[1..], key);
      assert s == [s[0]] + s[1..];
      assert forall j :: 0 <= j < |rest| ==> key(s[0]) >= key(rest[0]) >= key(rest[j]);
      [s[0]] + rest
    else
      [x] + s
  }

  /** `s.slice().sort((a, b) => key(b) - key(a))`, by insertion of each
      element after the earlier ones with an equal or larger key. */
  function SortDesc<T>(s: seq<T>, key: T -> int): (r: seq<T>)
    ensures |r| == |s| && multiset(r) == multiset(s)
    ensures SortedDesc(r, key)
  {
    if s == [] then []
    else
      assert s == s[..|s| - 1] + [s[|s| - 1]];
      InsertDesc(s[|s| - 1], SortDesc(s[..|s| - 1], key), key)
  }

  /** `s.slice(0, n)` */
  function Take<T>(s: seq<T>, n: nat): (r: seq<T>)
    ensures |r| == if n < |s| then n else |s|
    ensures r == s[..|r|]
  {
    if n < |s| then s[..n] else s
  }

  /** A prefix holds no element more often than the whole sequence. */
  lemma TakeSubMultiset<T>(s: seq<T>, n: nat)
    ensures multiset(Take(s, n)) <= multiset(s)
  {
    var t := Take(s, n);
    assert s == t + s[|t|..];
  }

  /** A prefix of a sorted sequence is sorted. */
  lemma TakeSorted<T>(s: seq<T>, n: nat, key: T -> int)
    requires SortedDesc(s, key)
    ensures SortedDesc(Take(s, n), key)
  {
  }

  /** Every element left out of the first `n` of a sorted permutation of
      `s` has a key no larger than any element kept: the prefix is a top `n`. */
  lemma TakeSortedIsTop<T>(s: seq<T>, n: nat, key: T -> int, x: T, y: T)
    requires x in s && y in Take(SortDesc(s, key), n) && x !in Take(SortDesc(s, key), n)
    ensures key(y) >= key(x)
  {
    var sorted := SortDesc(s, key);
    var top := Take(sorted, n);
    assert x in multiset(sorted);
    var j :| 0 <= j < |sorted| && sorted[j] == x;
    var i :| 0 <= i < |top| && top[i] == y;
  }

  /** `s.reduce((sum, x) => sum + f(x), 0)` */
  function SumBy<T>(s: seq<T>, f: T -> int): int {
    if s == [] then 0 else SumBy(s[..|s| - 1], f) + f(s[|s| - 1])
  }

  lemma {:induction false} SumByConcat<T>(a: seq<T>, b: seq<T>, f: T -> int)
    ensures SumBy(a + b, f) == SumBy(a, f) + SumBy(b, f)
    decreases |b|
  {
    if b == [] {
      assert a + b == a;
    } else {
      assert (a + b)[..|a + b| - 1] == a + b[..|b| - 1];
      SumByConcat(a, b[..|b| - 1], f);
    }
  }

  /** Reordering does not change a sum. */
  lemma {:induction false} SumByPermutation<T>(a: seq<T>, b: seq<T>, f: T -> int)
    requires multiset(a) == multiset(b)
    ensures SumBy(a, f) == SumBy(b, f)
    decreases |a|
  {
    if a != [] {
      var x := a[|a| - 1];
      var init := a[..|a| - 1];
      assert a == init + [x];
      assert x in multiset(b);
      var j :| 0 <= j < |b| && b[j] == x;
      var rest := b[..j] + b[j + 1..];
      assert b == b[..j] + ([x] + b[j + 1..]);
      assert multiset(b) == multiset(b[..j]) + multiset{x} + multiset(b[j + 1..]);
      assert multiset(rest) == multiset(b[..j]) + multiset(b[j + 1..]);
      assert multiset(a) == multiset(init) + multiset{x};
      assert multiset(rest) == multiset(b) - multiset{x};
      assert multiset(init) == multiset(a) - multiset{x};
      SumByPermutation(init, rest, f);
      SumByConcat(b[..j], [x] + b[j + 1..], f);
      SumByConcat([x], b[j + 1..], f);
      SumByConcat(b[..j], b[j + 1..], f);
      assert SumBy([x], f) == f(x);
    }
  }

  /** Each term is at most `bound`, so the sum is at most `|s| * bound`;
      each term is non-negative, so the sum is too. */
  lemma {:induction false} SumByBounds<T>(s: seq<T>, f: T -> int, bound: int)
    requires forall i :: 0 <= i < |s| ==> 0 <= f(s[i]) <= bound
    ensures 0 <= SumBy(s, f) <= |s| * bound
  {
    if s != [] {
      SumByBounds(s[..|s| - 1], f, bound);
    }
  }
}
