/** Descending sort and top-N selection, the two orderings the report uses:
    `sorted(..., reverse=True)` on the visualizations and
    `sort_values([col], ascending=False).head()` in `getTop5`.

    The sort here is an insertion sort that keeps input order among equal
    keys, as Python's `sorted` does; pandas' default `sort_values` makes no
    such promise, so nothing below relies on tie order. */
module Sorting {
  import opened Wrappers

  /** `s` is ordered by `key`, largest first. */
  ghost predicate SortedDesc<R>(s: seq<R>, key: R -> int) {
    forall i, j :: 0 <= i < j < |s| ==> key(s[j]) <= key(s[i])
  }

  /** Puts `x` in front of the first element whose key is not larger. */
  function Insert<R>(x: R, s: seq<R>, key: R -> int): (r: seq<R>)
    ensures multiset(r) == multiset(s) + multiset{x}
  {
    if s == [] || key(s[0]) <= key(x) then
      [x] + s
    else
      assert s == [s[0]] + s[1..];
      [s[0]] + Insert(x, s[1..], key)
  }

  lemma {:induction false} InsertKeepsSorted<R>(x: R, s: seq<R>, key: R -> int)
    requires SortedDesc(s, key)
    ensures SortedDesc(Insert(x, s, key), key)
  {
    if s != [] && key(x) < key(s[0]) {
      var t := Insert(x, s[1..], key);
      InsertKeepsSorted(x, s[1..], key);
      assert s == [s[0]] + s[1..];
      forall i | 0 <= i < |t| ensures key(t[i]) <= key(s[0]) {
        assert t[i] in multiset(t);
        assert t[i] == x || t[i] in multiset(s[1..]);
      }
      assert Insert(x, s, key) == [s[0]] + t;
    }
  }

  /** The rows of `s`, largest key first. */
  function SortDesc<R>(s: seq<R>, key: R -> int): (r: seq<R>)
    ensures multiset(r) == multiset(s)
    ensures |r| == |s|
    ensures SortedDesc(r, key)
  {
    if s == [] then
      []
    else
      assert s == [s[0]] + s[1..];
      InsertKeepsSorted(s[0], SortDesc(s[1..], key), key);
      Insert(s[0], SortDesc(s[1..], key), key)
  }

  /** `df.sort_values([key], ascending=False).head(n)`: the first `n` rows
      of the descending order. */
  function Top<R>(s: seq<R>, key: R -> int, n: nat): (r: seq<R>)
    ensures |r| == Min(n, |s|)
    ensures SortedDesc(r, key)
    ensures multiset(r) <= multiset(s)
  {
    var t := SortDesc(s, key);
    var k := Min(n, |s|);
    SortedPrefix(t, key, k);
    t[..k]
  }

  lemma SortedPrefix<R>(t: seq<R>, key: R -> int, k: nat)
    requires SortedDesc(t, key) && k <= |t|
    ensures SortedDesc(t[..k], key)
    ensures multiset(t[..k]) <= multiset(t)
  {
    assert t == t[..k] + t[k..];
    assert multiset(t) == multiset(t[..k]) + multiset(t[k..]);
    forall i, j | 0 <= i < j < k ensures key(t[..k][j]) <= key(t[..k][i]) {
      assert t[..k][i] == t[i] && t[..k][j] == t[j];
    }
  }

  /** No row left out of the top `n` has a larger key than a row kept: for
      every value of which fewer copies are kept than the input holds, its
      key is at most the key of each kept row. */
  lemma {:induction false} TopDominatesOmitted<R>(s: seq<R>, key: R -> int, n: nat)
    ensures forall y :: multiset(Top(s, key, n))[y] < multiset(s)[y] ==>
      forall i :: 0 <= i < |Top(s, key, n)| ==> key(y) <= key(Top(s, key, n)[i])
  {
    var t := SortDesc(s, key);
    var k := Min(n, |s|);
    var r := Top(s, key, n);
    assert r == t[..k];
    assert t == r + t[k..];
    assert multiset(t) == multiset(r) + multiset(t[k..]);
    forall y | multiset(r)[y] < multiset(s)[y]
      ensures forall i :: 0 <= i < |r| ==> key(y) <= key(r[i])
    {
      assert y in multiset(t[k..]);
      SortedTailBelowHead(t, key, k, y);
    }
  }

  /** In a descending sequence, every element from position `k` on has a
      key no larger than any element before `k`. */
  lemma SortedTailBelowHead<R>(t: seq<R>, key: R -> int, k: nat, y: R)
    requires SortedDesc(t, key) && k <= |t| && y in t[k..]
    ensures forall i :: 0 <= i < k ==> key(y) <= key(t[..k][i])
  {
    var j :| 0 <= j < |t[k..]| && t[k..][j] == y;
    assert t[k + j] == y;
    forall i | 0 <= i < k ensures key(y) <= key(t[..k][i]) {
      assert t[..k][i] == t[i];
    }
  }

  /** The sum of `f` over the rows of `s`. */
  function SumBy<R>(s: seq<R>, f: R -> int): int {
    if s == [] then 0 else f(s[0]) + SumBy(s[1..], f)
  }

  lemma {:induction false} SumByInsert<R>(x: R, s: seq<R>, key: R -> int, f: R -> int)
    ensures SumBy(Insert(x, s, key), f) == f(x) + SumBy(s, f)
  {
    if s == [] || key(s[0]) <= key(x) {
      assert ([x] + s)[1..] == s;
    } else {
      var t := Insert(x, s[1..], key);
      SumByInsert(x, s[1..], key, f);
      assert ([s[0]] + t)[1..] == t;
    }
  }

  lemma {:induction false} SumByAppend<R>(a: seq<R>, b: seq<R>, f: R -> int)
    ensures SumBy(a + b, f) == SumBy(a, f) + SumBy(b, f)
  {
    if a != [] {
      SumByAppend(a[1..], b, f);
      assert (a + b)[0] == a[0];
      assert (a + b)[1..] == a[1..] + b;
    } else {
      assert a + b == b;
    }
  }

  /** Sorting does not change a sum over the rows. */
  lemma {:induction false} SumBySortDesc<R>(s: seq<R>, key: R -> int, f: R -> int)
    ensures SumBy(SortDesc(s, key), f) == SumBy(s, f)
  {
    if s != [] {
      SumBySortDesc(s[1..], key, f);
      SumByInsert(s[0], SortDesc(s[1..], key), key, f);
    }
  }
}
