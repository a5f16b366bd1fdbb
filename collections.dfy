/**
 * The array operations the services lean on, over sequences: `filter`,
 * a `reduce` that sums, and the stable `sort` with a numeric comparator.
 */
module Collections {

  /** `s.filter(p)` */
  function Filter<T(==)>(s: seq<T>, p: T -> bool): (r: seq<T>)
    ensures |r| <= |s|
    ensures forall i :: 0 <= i < |r| ==> p(r[i])
  {
    if s == [] then []
    else if p(s[0]) then [s[0]] + Filter(s[1..], p)
    else Filter(s[1..], p)
  }

  /** The filter keeps exactly the elements that satisfy the predicate. */
  lemma {:induction false} FilterMembers<T>(s: seq<T>, p: T -> bool)
    ensures forall i :: 0 <= i < |Filter(s, p)| ==> Filter(s, p)[i] in s
    ensures forall i :: 0 <= i < |s| && p(s[i]) ==> s[i] in Filter(s, p)
    decreases |s|
  {
    if s != [] {
      FilterMembers(s[1..], p);
      var r := Filter(s, p);
      forall i | 0 <= i < |r| ensures r[i] in s {
        if p(s[0]) && i == 0 {
        } else {
          var k := if p(s[0]) then i - 1 else i;
          assert r[i] == Filter(s[1..], p)[k];
          assert r[i] in s[1..];
        }
      }
      forall i | 0 <= i < |s| && p(s[i]) ensures s[i] in r {
        if i > 0 {
          assert s[i] == s[1..][i - 1];
        }
      }
    }
  }

  /** `a` is `b` with some elements dropped and the rest kept in order. */
  predicate IsSubsequence<T(==)>(a: seq<T>, b: seq<T>)
    decreases |b|
  {
    a == [] || (b != [] && ((a[0] == b[0] && IsSubsequence(a[1..], b[1..])) || IsSubsequence(a, b[1..])))
  }

  /** Anything more at the end of the longer sequence keeps a subsequence one. */
  lemma {:induction false} SubsequenceExtend<T>(a: seq<T>, b: seq<T>, x: T)
    requires IsSubsequence(a, b)
    ensures IsSubsequence(a, b + [x])
    decreases |b|
  {
    if a != [] {
      assert (b + [x])[0] == b[0] && (b + [x])[1..] == b[1..] + [x];
      if a[0] == b[0] && IsSubsequence(a[1..], b[1..]) {
        SubsequenceExtend(a[1..], b[1..], x);
      } else {
        SubsequenceExtend(a, b[1..], x);
      }
    }
  }

  /** The same element added at the end of both keeps a subsequence one. */
  lemma {:induction false} SubsequenceSnoc<T>(a: seq<T>, b: seq<T>, x: T)
    requires IsSubsequence(a, b)
    ensures IsSubsequence(a + [x], b + [x])
    decreases |b|
  {
    if b == [] {
      assert a == [];
      assert ([] + [x])[1..] == [];
    } else {
      assert (b + [x])[0] == b[0] && (b + [x])[1..] == b[1..] + [x];
      if a == [] {
        SubsequenceSnoc(a, b[1..], x);
        assert a + [x] == [x];
      } else if a[0] == b[0] && IsSubsequence(a[1..], b[1..]) {
        SubsequenceSnoc(a[1..], b[1..], x);
        assert (a + [x])[0] == a[0] && (a + [x])[1..] == a[1..] + [x];
      } else {
        SubsequenceSnoc(a, b[1..], x);
      }
    }
  }

  /** Keeps, in order, the elements of `xs` whose flag is set: the messages of the checks that fired. */
  function Flagged<T>(xs: seq<T>, flags: seq<bool>): (r: seq<T>)
    requires |flags| == |xs|
    ensures |r| <= |xs|
  {
    if xs == [] then []
    else (if flags[|xs| - 1] then Flagged(xs[..|xs| - 1], flags[..|xs| - 1]) + [xs[|xs| - 1]]
      else Flagged(xs[..|xs| - 1], flags[..|xs| - 1]))
  }

  /** One more check adds its message at the end exactly when it fires. */
  lemma FlaggedSnoc<T>(xs: seq<T>, flags: seq<bool>, x: T, c: bool)
    requires |flags| == |xs|
    ensures Flagged(xs + [x], flags + [c]) == Flagged(xs, flags) + (if c then [x] else [])
  {
    assert (xs + [x])[..|xs|] == xs && (flags + [c])[..|xs|] == flags;
  }

  /** The messages of the checks that fired come in the order of the checks, and each fired. */
  lemma {:induction false} FlaggedInOrder<T>(xs: seq<T>, flags: seq<bool>)
    requires |flags| == |xs|
    ensures IsSubsequence(Flagged(xs, flags), xs)
    ensures forall i :: 0 <= i < |xs| && flags[i] ==> xs[i] in Flagged(xs, flags)
    ensures forall x :: x in Flagged(xs, flags) ==> exists i :: 0 <= i < |xs| && flags[i] && xs[i] == x
    decreases |xs|
  {
    if xs != [] {
      var n := |xs| - 1;
      var r := Flagged(xs[..n], flags[..n]);
      FlaggedInOrder(xs[..n], flags[..n]);
      assert xs == xs[..n] + [xs[n]];
      if flags[n] {
        SubsequenceSnoc(r, xs[..n], xs[n]);
      } else {
        SubsequenceExtend(r, xs[..n], xs[n]);
      }
      forall i | 0 <= i < |xs| && flags[i] ensures xs[i] in Flagged(xs, flags) {
        if i < n {
          assert xs[..n][i] == xs[i] && flags[..n][i] == flags[i];
        }
      }
      forall x | x in Flagged(xs, flags) ensures exists i :: 0 <= i < |xs| && flags[i] && xs[i] == x {
        if x in r {
          var i :| 0 <= i < n && flags[..n][i] && xs[..n][i] == x;
          assert flags[i] && xs[i] == x;
        } else {
          assert flags[n] && xs[n] == x;
        }
      }
    }
  }

  lemma {:induction false} FilterSubsequence<T>(s: seq<T>, p: T -> bool)
    ensures IsSubsequence(Filter(s, p), s)
    decreases |s|
  {
    if s != [] {
      FilterSubsequence(s[1..], p);
      if p(s[0]) {
        assert Filter(s, p)[1..] == Filter(s[1..], p);
      }
    }
  }

  /** Filtering by two predicates in a row is filtering by their conjunction. */
  lemma {:induction false} FilterFuse<T>(s: seq<T>, p: T -> bool, q: T -> bool, pq: T -> bool)
    requires forall x :: pq(x) == (p(x) && q(x))
    ensures Filter(Filter(s, p), q) == Filter(s, pq)
    decreases |s|
  {
    if s != [] {
      FilterFuse(s[1..], p, q, pq);
      if p(s[0]) {
        assert Filter(s, p) == [s[0]] + Filter(s[1..], p);
        assert Filter(s, p)[1..] == Filter(s[1..], p);
      }
    }
  }

  /** A filter keeps the length exactly when it drops nothing. */
  lemma {:induction false} FilterDropsIff<T>(s: seq<T>, p: T -> bool)
    ensures |Filter(s, p)| == |s| <==> forall i :: 0 <= i < |s| ==> p(s[i])
    decreases |s|
  {
    if s != [] {
      FilterDropsIff(s[1..], p);
      if forall i :: 0 <= i < |s| ==> p(s[i]) {
        assert forall i :: 0 <= i < |s[1..]| ==> p(s[1..][i]) by {
          forall i | 0 <= i < |s[1..]| ensures p(s[1..][i]) {
            assert s[1..][i] == s[i + 1];
          }
        }
      }
      if p(s[0]) && (forall i :: 0 <= i < |s[1..]| ==> p(s[1..][i])) {
        forall i | 0 <= i < |s| ensures p(s[i]) {
          if i > 0 {
            assert s[i] == s[1..][i - 1];
          }
        }
      }
    }
  }

  /** A filter that keeps everything leaves the sequence as it was. */
  lemma {:induction false} FilterKeepsAll<T>(s: seq<T>, p: T -> bool)
    requires forall x :: p(x)
    ensures Filter(s, p) == s
    decreases |s|
  {
    if s != [] {
      FilterKeepsAll(s[1..], p);
    }
  }

  /** `s.reduce((sum, x) => sum + f(x), 0)` */
  function SumBy<T>(s: seq<T>, f: T -> int): int {
    if s == [] then 0 else f(s[0]) + SumBy(s[1..], f)
  }

  lemma {:induction false} SumByConcat<T>(a: seq<T>, b: seq<T>, f: T -> int)
    ensures SumBy(a + b, f) == SumBy(a, f) + SumBy(b, f)
    decreases |a|
  {
    if a == [] {
      assert a + b == b;
    } else {
      assert (a + b)[0] == a[0];
      assert (a + b)[1..] == a[1..] + b;
      SumByConcat(a[1..], b, f);
    }
  }

  /** A sum is the same however its terms are ordered. */
  lemma {:induction false} SumByPermutation<T>(a: seq<T>, b: seq<T>, f: T -> int)
    requires multiset(a) == multiset(b)
    ensures SumBy(a, f) == SumBy(b, f)
    decreases |a|
  {
    if a == [] {
      assert |b| == |multiset(b)| == 0;
    } else {
      assert a[0] in multiset(b);
      var j :| 0 <= j < |b| && b[j] == a[0];
      var rest := b[..j] + b[j + 1..];
      RemoveAt(b, j);
      assert a == [a[0]] + a[1..];
      assert multiset(a[1..]) == multiset(rest);
      SumByPermutation(a[1..], rest, f);
      SumByRemoveAt(b, j, f);
    }
  }

  /** Taking out the element at `j` takes one copy of it out of the multiset. */
  lemma RemoveAt<T>(b: seq<T>, j: nat)
    requires j < |b|
    ensures multiset(b[..j] + b[j + 1..]) == multiset(b) - multiset{b[j]}
  {
    assert b == b[..j] + [b[j]] + b[j + 1..];
  }

  /** Taking out the element at `j` takes its term out of the sum. */
  lemma SumByRemoveAt<T>(b: seq<T>, j: nat, f: T -> int)
    requires j < |b|
    ensures SumBy(b, f) == f(b[j]) + SumBy(b[..j] + b[j + 1..], f)
  {
    assert b == b[..j] + [b[j]] + b[j + 1..];
    SumByConcat(b[..j] + [b[j]], b[j + 1..], f);
    SumByConcat(b[..j], [b[j]], f);
    SumByConcat(b[..j], b[j + 1..], f);
    assert SumBy([b[j]], f) == f(b[j]) + SumBy([b[j]][1..], f);
  }

  /** The sum is the sum of all but the last term, plus the last term. */
  lemma SumByLast<T>(s: seq<T>, f: T -> int)
    requires s != []
    ensures SumBy(s, f) == SumBy(s[..|s| - 1], f) + f(s[|s| - 1])
  {
    var n := |s| - 1;
    assert s == s[..n] + [s[n]];
    SumByConcat(s[..n], [s[n]], f);
    assert SumBy([s[n]], f) == f(s[n]) + SumBy([s[n]][1..], f);
  }

  /** The terms kept by a filter and the terms it drops add up to the whole sum. */
  lemma {:induction false} SumBySplit<T>(s: seq<T>, f: T -> int, p: T -> bool, notP: T -> bool)
    requires forall x :: notP(x) == !p(x)
    ensures SumBy(s, f) == SumBy(Filter(s, p), f) + SumBy(Filter(s, notP), f)
    decreases |s|
  {
    if s != [] {
      SumBySplit(s[1..], f, p, notP);
    }
  }

  /** Descending order of `key`. */
  predicate SortedDesc<T>(s: seq<T>, key: T -> int) {
    forall i, j :: 0 <= i < j < |s| ==> key(s[i]) >= key(s[j])
  }

  /** Puts `x` in front of the first element whose key is not larger, so equal keys keep their order. */
  function InsertDesc<T>(x: T, r: seq<T>, key: T -> int): (q: seq<T>)
    ensures |q| == |r| + 1
    ensures multiset(q) == multiset(r) + multiset{x}
  {
    if r == [] || key(x) >= key(r[0]) then [x] + r
    else
      assert r == [r[0]] + r[1..];
      [r[0]] + InsertDesc(x, r[1..], key)
  }

  /** No key in `s` exceeds `b`. */
  predicate BoundedBy<T>(s: seq<T>, key: T -> int, b: int) {
    forall i :: 0 <= i < |s| ==> key(s[i]) <= b
  }

  /** Inserting an element under the bound keeps the sequence under it. */
  lemma {:induction false} InsertDescBounded<T>(x: T, r: seq<T>, key: T -> int, b: int)
    requires key(x) <= b && BoundedBy(r, key, b)
    ensures BoundedBy(InsertDesc(x, r, key), key, b)
    decreases |r|
  {
    if r != [] && key(x) < key(r[0]) {
      InsertDescBounded(x, r[1..], key, b);
      assert InsertDesc(x, r, key) == [r[0]] + InsertDesc(x, r[1..], key);
    }
  }

  lemma {:induction false} InsertDescSorted<T>(x: T, r: seq<T>, key: T -> int)
    requires SortedDesc(r, key)
    ensures SortedDesc(InsertDesc(x, r, key), key)
    decreases |r|
  {
    if r != [] && key(x) < key(r[0]) {
      var t := InsertDesc(x, r[1..], key);
      InsertDescSorted(x, r[1..], key);
      InsertDescBounded(x, r[1..], key, key(r[0]));
      assert InsertDesc(x, r, key) == [r[0]] + t;
    }
  }

  /**
   * `[...s].sort((a, b) => key(b) - key(a))`: JavaScript's sort is stable,
   * so the result is this insertion sort's.
   */
  function SortDesc<T>(s: seq<T>, key: T -> int): (r: seq<T>)
    ensures |r| == |s| && multiset(r) == multiset(s)
  {
    if s == [] then []
    else
      assert s == [s[0]] + s[1..];
      InsertDesc(s[0], SortDesc(s[1..], key), key)
  }

  lemma {:induction false} SortDescSorted<T>(s: seq<T>, key: T -> int)
    ensures SortedDesc(SortDesc(s, key), key)
  {
    if s != [] {
      SortDescSorted(s[1..], key);
      InsertDescSorted(s[0], SortDesc(s[1..], key), key);
    }
  }

  /** Sorting what is already sorted changes nothing, so sorting twice is sorting once. */
  lemma {:induction false} SortDescOfSorted<T>(s: seq<T>, key: T -> int)
    requires SortedDesc(s, key)
    ensures SortDesc(s, key) == s
  {
    if s != [] {
      assert SortedDesc(s[1..], key);
      SortDescOfSorted(s[1..], key);
      assert s == [s[0]] + s[1..];
    }
  }

  /** The elements of a sequence, as a set, are those of any permutation of it. */
  lemma PermutationSameElements<T>(a: seq<T>, b: seq<T>)
    requires multiset(a) == multiset(b)
    ensures forall i :: 0 <= i < |a| ==> a[i] in b
    ensures forall i :: 0 <= i < |b| ==> b[i] in a
  {
    forall i | 0 <= i < |a| ensures a[i] in b {
      assert a[i] in multiset(a);
    }
    forall i | 0 <= i < |b| ensures b[i] in a {
      assert b[i] in multiset(b);
    }
  }
}
