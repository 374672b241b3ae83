/**
 * The array pipeline steps the pages are built from: `filter`, `map`, `slice(0, n)`, a
 * stable `sort` by a numeric key and duplicate removal through a `Set`, with the facts
 * the pages rely on.
 */
module Seqs {
  import opened Common

  /** `a` can be obtained from `b` by deleting elements: order is preserved. */
  ghost predicate IsSubsequence<T(!new)>(a: seq<T>, b: seq<T>)
    decreases |b|
  {
    a == [] || (b != [] && ((a[0] == b[0] && IsSubsequence(a[1..], b[1..])) || IsSubsequence(a, b[1..])))
  }

  /** `Array.prototype.filter`: the elements satisfying `p`, in their original order. */
  function Filter<T(!new)>(s: seq<T>, p: T -> bool): (r: seq<T>)
    ensures |r| <= |s|
    ensures forall x :: x in r <==> x in s && p(x)
    ensures forall x :: multiset(r)[x] == if p(x) then multiset(s)[x] else 0
    ensures IsSubsequence(r, s)
    decreases |s|
  {
    if s == [] then []
    else
      assert s == [s[0]] + s[1..];
      if p(s[0]) then [s[0]] + Filter(s[1..], p)
      else Filter(s[1..], p)
  }

  /** Filtering two rearrangements of each other gives rearrangements of each other. */
  lemma FilterPermutation<T(!new)>(a: seq<T>, b: seq<T>, p: T -> bool)
    requires multiset(a) == multiset(b)
    ensures multiset(Filter(a, p)) == multiset(Filter(b, p))
  {
    forall x ensures multiset(Filter(a, p))[x] == multiset(Filter(b, p))[x] {
    }
  }

  /** A filter that keeps everything returns its input unchanged. */
  lemma {:induction false} FilterKeepsAll<T(!new)>(s: seq<T>, p: T -> bool)
    requires forall x :: x in s ==> p(x)
    ensures Filter(s, p) == s
    decreases |s|
  {
    if s != [] {
      FilterKeepsAll(s[1..], p);
    }
  }

  /** A filter that rejects everything returns nothing. */
  lemma FilterKeepsNone<T(!new)>(s: seq<T>, p: T -> bool)
    requires forall x :: x in s ==> !p(x)
    ensures Filter(s, p) == []
  {
    if Filter(s, p) != [] {
      assert Filter(s, p)[0] in Filter(s, p);
    }
  }

  /** When exactly one position satisfies `p`, the filter keeps that element alone. */
  lemma {:induction false} FilterSingle<T(!new)>(s: seq<T>, p: T -> bool, k: nat)
    requires k < |s| && p(s[k])
    requires forall i :: 0 <= i < |s| && i != k ==> !p(s[i])
    ensures Filter(s, p) == [s[k]]
    decreases |s|
  {
    if k == 0 {
      FilterKeepsNone(s[1..], p);
    } else {
      FilterSingle(s[1..], p, k - 1);
    }
  }

  /** Weakening the predicate never drops an element: the stricter result is a subsequence. */
  lemma {:induction false} FilterMonotone<T(!new)>(s: seq<T>, p: T -> bool, q: T -> bool)
    requires forall x :: p(x) ==> q(x)
    ensures IsSubsequence(Filter(s, p), Filter(s, q))
    decreases |s|
  {
    if s != [] {
      FilterMonotone(s[1..], p, q);
      if !p(s[0]) && q(s[0]) {
        var fp, fq := Filter(s[1..], p), Filter(s[1..], q);
        assert Filter(s, q) == [s[0]] + fq && Filter(s, p) == fp;
        assert ([s[0]] + fq)[1..] == fq;
      }
    }
  }

  /** Filters with predicates that agree on every element give the same result. */
  lemma {:induction false} FilterSamePredicate<T(!new)>(s: seq<T>, p: T -> bool, q: T -> bool)
    requires forall x :: x in s ==> p(x) == q(x)
    ensures Filter(s, p) == Filter(s, q)
    decreases |s|
  {
    if s != [] {
      FilterSamePredicate(s[1..], p, q);
    }
  }

  /**
   * `Array.from(new Set(s))`: each distinct element once, at the place of its first
   * occurrence.
   */
  function Dedup<T(==,!new)>(s: seq<T>): (r: seq<T>)
    ensures forall x :: x in r <==> x in s
    ensures forall i, j :: 0 <= i < j < |r| ==> r[i] != r[j]
    ensures |r| <= |s|
    decreases |s|
  {
    if s == [] then []
    else
      var init, last := s[..|s| - 1], s[|s| - 1];
      assert s == init + [last];
      var seen := Dedup(init);
      if last in seen then seen else seen + [last]
  }

  /** De-duplication keeps the order of first appearance: an element listed earlier occurs earlier. */
  lemma {:induction false} DedupFirstAppearance<T(!new)>(s: seq<T>)
    ensures forall i, j, k :: 0 <= i < j < |Dedup(s)| && 0 <= k < |s| && s[k] == Dedup(s)[j] ==>
      Dedup(s)[i] in s[..k]
    decreases |s|
  {
    if s != [] {
      var init, last := s[..|s| - 1], s[|s| - 1];
      assert s == init + [last];
      DedupFirstAppearance(init);
      var seen, r := Dedup(init), Dedup(s);
      assert r == if last in seen then seen else seen + [last];
      forall i, j, k | 0 <= i < j < |r| && 0 <= k < |s| && s[k] == r[j]
        ensures r[i] in s[..k]
      {
        assert r[i] == seen[i] && r[i] in init;
        if k < |init| {
          assert s[..k] == init[..k] && init[k] == s[k];
          assert j < |seen| ==> r[j] == seen[j];
        } else {
          assert s[..k] == init;
        }
      }
    }
  }

  /** Appending an element already seen leaves the de-duplicated list as it was. */
  lemma DedupSnocSeen<T(!new)>(s: seq<T>, x: T)
    requires x in s
    ensures Dedup(s + [x]) == Dedup(s)
  {
    assert (s + [x])[..|s|] == s;
  }

  /** Appending a new element appends it to the de-duplicated list. */
  lemma DedupSnocNew<T(!new)>(s: seq<T>, x: T)
    requires x !in s
    ensures Dedup(s + [x]) == Dedup(s) + [x]
  {
    assert (s + [x])[..|s|] == s;
  }



  /** `s.slice(0, n)`: the first n elements, or all of them when there are fewer. */
  function Slice<T(!new)>(s: seq<T>, n: nat): (r: seq<T>)
    ensures |r| == Min(n, |s|)
    ensures r <= s
    ensures forall x :: x in r ==> x in s
  {
    if |s| <= n then s else s[..n]
  }

  /** The elements of a slice are the first ones, and what is left out is the rest. */
  lemma SliceSplits<T(!new)>(s: seq<T>, n: nat)
    ensures multiset(s) == multiset(Slice(s, n)) + multiset(s[|Slice(s, n)|..])
  {
    var k := |Slice(s, n)|;
    assert s == s[..k] + s[k..];
  }

  /**
   * Two rearrangements of each other: the head of the first sits somewhere in the second,
   * and removing both leaves rearrangements again.
   */
  lemma PermutationWithoutHead<T>(a: seq<T>, b: seq<T>) returns (i: nat)
    requires a != [] && multiset(a) == multiset(b)
    ensures i < |b| && b[i] == a[0]
    ensures multiset(a[1..]) == multiset(b[..i] + b[i + 1..])
  {
    assert a[0] in multiset(b);
    i :| 0 <= i < |b| && b[i] == a[0];
    assert b == b[..i] + [b[i]] + b[i + 1..];
    assert a == [a[0]] + a[1..];
    calc {
      multiset(a[1..]);
      multiset(a) - multiset{a[0]};
      multiset(b[..i]) + multiset{b[i]} + multiset(b[i + 1..]) - multiset{a[0]};
      multiset(b[..i] + b[i + 1..]);
    }
  }

  /** Applies `f` to every element, keeping the order. */
  function Map<A, B>(s: seq<A>, f: A -> B): (r: seq<B>)
    ensures |r| == |s|
    ensures forall i :: 0 <= i < |s| ==> r[i] == f(s[i])
  {
    seq(|s|, i requires 0 <= i < |s| => f(s[i]))
  }

  lemma MapAppend<A, B>(a: seq<A>, b: seq<A>, f: A -> B)
    ensures Map(a + b, f) == Map(a, f) + Map(b, f)
  {
  }

  lemma MapSplit<A, B>(s: seq<A>, f: A -> B, i: nat)
    requires i < |s|
    ensures Map(s, f) == Map(s[..i], f) + [f(s[i])] + Map(s[i + 1..], f)
  {
  }

  /** Mapping commutes with rearranging: rearranged inputs give rearranged outputs. */
  lemma {:induction false} MapPermutation<A, B>(a: seq<A>, b: seq<A>, f: A -> B)
    requires multiset(a) == multiset(b)
    ensures multiset(Map(a, f)) == multiset(Map(b, f))
    decreases |a|
  {
    if a == [] {
      assert |b| == |multiset(b)| == 0;
    } else {
      var i := PermutationWithoutHead(a, b);
      var left, right := b[..i], b[i + 1..];
      MapPermutation(a[1..], left + right, f);
      var ml, mr := Map(left, f), Map(right, f);
      MapSplit(b, f, i);
      assert multiset(Map(b, f)) == multiset(ml) + multiset{f(a[0])} + multiset(mr);
      MapAppend(left, right, f);
      assert multiset(Map(a[1..], f)) == multiset(ml) + multiset(mr);
      assert Map(a, f) == [f(a[0])] + Map(a[1..], f);
    }
  }

  /** Non-increasing by `key`: the order `sort((a, b) => key(b) - key(a))` produces. */
  ghost predicate SortedDesc<T(!new)>(s: seq<T>, key: T -> int)
  {
    forall i, j :: 0 <= i < j < |s| ==> key(s[i]) >= key(s[j])
  }

  /** Prepending an element no smaller than everything after it keeps the order. */
  lemma ConsSorted<T(!new)>(h: T, t: seq<T>, key: T -> int)
    requires SortedDesc(t, key)
    requires forall y :: y in t ==> key(y) <= key(h)
    ensures SortedDesc([h] + t, key)
  {
    var s := [h] + t;
    forall i, j | 0 <= i < j < |s| ensures key(s[i]) >= key(s[j]) {
      if i > 0 {
        assert s[i] == t[i - 1] && s[j] == t[j - 1];
      } else {
        assert s[j] == t[j - 1] && s[j] in t;
      }
    }
  }

  /** Inserts `x` in front of the first element whose key is not larger than its own. */
  function InsertDesc<T(!new)>(x: T, s: seq<T>, key: T -> int): (r: seq<T>)
    ensures multiset(r) == multiset(s) + multiset{x}
    ensures |r| == |s| + 1
    decreases |s|
  {
    if s == [] || key(x) >= key(s[0]) then [x] + s
    else
      assert s == [s[0]] + s[1..];
      [s[0]] + InsertDesc(x, s[1..], key)
  }

  lemma {:induction false} InsertDescSorted<T(!new)>(x: T, s: seq<T>, key: T -> int)
    requires SortedDesc(s, key)
    ensures SortedDesc(InsertDesc(x, s, key), key)
    decreases |s|
  {
    if s == [] || key(x) >= key(s[0]) {
      forall y | y in s ensures key(y) <= key(x) {
        var j :| 0 <= j < |s| && s[j] == y;
        assert key(s[0]) >= key(s[j]) || j == 0;
      }
      ConsSorted(x, s, key);
    } else {
      var t := s[1..];
      assert SortedDesc(t, key) by {
        forall i, j | 0 <= i < j < |t| ensures key(t[i]) >= key(t[j]) {
          assert t[i] == s[i + 1] && t[j] == s[j + 1];
        }
      }
      InsertDescSorted(x, t, key);
      var rest := InsertDesc(x, t, key);
      forall y | y in rest ensures key(y) <= key(s[0]) {
        assert y in multiset(rest);
        if y != x {
          assert y in multiset(t);
          var j :| 0 <= j < |t| && t[j] == y;
          assert s[j + 1] == y;
        }
      }
      ConsSorted(s[0], rest, key);
    }
  }

  /**
   * `Array.prototype.sort` with a comparator `(a, b) => key(b) - key(a)`: largest key
   * first. The sort is stable (elements with equal keys keep their relative order),
   * as the ECMAScript specification requires of `sort` since its 2019 edition.
   */
  function SortDescBy<T(!new)>(s: seq<T>, key: T -> int): (r: seq<T>)
    ensures multiset(r) == multiset(s)
    ensures |r| == |s|
    ensures SortedDesc(r, key)
    decreases |s|
  {
    if s == [] then []
    else
      assert s == [s[0]] + s[1..];
      var rest := SortDescBy(s[1..], key);
      InsertDescSorted(s[0], rest, key);
      InsertDesc(s[0], rest, key)
  }

  /** The elements of `s` whose key equals `k`, in order. */
  function WithKey<T(!new)>(s: seq<T>, key: T -> int, k: int): seq<T>
    decreases |s|
  {
    if s == [] then []
    else (if key(s[0]) == k then [s[0]] else []) + WithKey(s[1..], key, k)
  }

  /** Selecting by key distributes over a leading element. */
  lemma WithKeyCons<T(!new)>(h: T, t: seq<T>, key: T -> int, k: int)
    ensures WithKey([h] + t, key, k) == (if key(h) == k then [h] else []) + WithKey(t, key, k)
  {
    assert ([h] + t)[0] == h && ([h] + t)[1..] == t;
  }

  /** Putting a larger-keyed element in front of both sides keeps a selection-by-key equation. */
  lemma WithKeyBehindLarger<T(!new)>(x: T, s: seq<T>, rest: seq<T>, key: T -> int, k: int)
    requires s != [] && key(x) < key(s[0])
    requires WithKey(rest, key, k) == (if key(x) == k then [x] else []) + WithKey(s[1..], key, k)
    ensures WithKey([s[0]] + rest, key, k) == (if key(x) == k then [x] else []) + WithKey(s, key, k)
  {
    WithKeyCons(s[0], rest, key, k);
    var w := WithKey(s[1..], key, k);
    assert WithKey(s, key, k) == (if key(s[0]) == k then [s[0]] else []) + w;
    if key(x) == k {
      assert WithKey(s, key, k) == w by { assert key(s[0]) != k; assert [] + w == w; }
    } else {
      assert WithKey(rest, key, k) == w by { assert [] + w == w; }
    }
  }

  lemma {:induction false} InsertDescStable<T(!new)>(x: T, s: seq<T>, key: T -> int, k: int)
    ensures WithKey(InsertDesc(x, s, key), key, k) == (if key(x) == k then [x] else []) + WithKey(s, key, k)
    decreases |s|
  {
    if s == [] || key(x) >= key(s[0]) {
      WithKeyCons(x, s, key, k);
    } else {
      InsertDescStable(x, s[1..], key, k);
      WithKeyBehindLarger(x, s, InsertDesc(x, s[1..], key), key, k);
    }
  }

  /** Stability: among elements with equal keys, the sort keeps the input order. */
  lemma {:induction false} SortDescStable<T(!new)>(s: seq<T>, key: T -> int, k: int)
    ensures WithKey(SortDescBy(s, key), key, k) == WithKey(s, key, k)
    decreases |s|
  {
    if s != [] {
      SortDescStable(s[1..], key, k);
      InsertDescStable(s[0], SortDescBy(s[1..], key), key, k);
    }
  }

  /** A subsequence of a sorted sequence is sorted. */
  lemma {:induction false} SubsequenceSorted<T(!new)>(a: seq<T>, b: seq<T>, key: T -> int)
    requires IsSubsequence(a, b) && SortedDesc(b, key)
    ensures SortedDesc(a, key)
    ensures forall x :: x in a ==> x in b
    decreases |b|
  {
    if a != [] {
      if a[0] == b[0] && IsSubsequence(a[1..], b[1..]) {
        SubsequenceSorted(a[1..], b[1..], key);
        forall y | y in a[1..] ensures key(y) <= key(a[0]) {
          var j :| 0 <= j < |b[1..]| && b[1..][j] == y;
          assert b[j + 1] == y;
        }
        ConsSorted(a[0], a[1..], key);
        assert a == [a[0]] + a[1..];
      } else {
        SubsequenceSorted(a, b[1..], key);
      }
    }
  }

  /**
   * A slice of a sorted sequence is sorted, is drawn from it, and nothing it leaves out
   * has a larger key than anything it keeps.
   */
  lemma SliceOfSortedIsTop<T(!new)>(s: seq<T>, n: nat, key: T -> int)
    requires SortedDesc(s, key)
    ensures SortedDesc(Slice(s, n), key)
    ensures multiset(Slice(s, n)) <= multiset(s)
    ensures forall x :: x in Slice(s, n) ==> x in s
    ensures forall x, y :: x in s && x !in Slice(s, n) && y in Slice(s, n) ==> key(x) <= key(y)
  {
    var r := Slice(s, n);
    var k := |r|;
    assert r == s[..k];
    SliceSplits(s, n);
    assert s == r + s[k..];
    forall x, y | x in s[k..] && y in r
      ensures key(x) <= key(y)
    {
      var i :| 0 <= i < |s[k..]| && s[k..][i] == x;
      var j :| 0 <= j < k && r[j] == y;
      assert s[k + i] == x && s[j] == y;
    }
  }

  /**
   * `[...s].sort((a, b) => key(b) - key(a)).slice(0, n)`: the n elements with the largest
   * keys, largest first.
   */
  function TopBy<T(!new)>(s: seq<T>, key: T -> int, n: nat): (r: seq<T>)
    ensures |r| == Min(n, |s|)
    ensures SortedDesc(r, key)
    ensures multiset(r) <= multiset(s)
    ensures forall x :: x in r ==> x in s
    ensures forall x, y :: x in s && x !in r && y in r ==> key(x) <= key(y)
  {
    var sorted := SortDescBy(s, key);
    SliceOfSortedIsTop(sorted, n, key);
    assert forall x :: x in sorted <==> x in s by {
      forall x ensures x in sorted <==> x in s {
        assert x in sorted <==> x in multiset(sorted);
      }
    }
    Slice(sorted, n)
  }
}
