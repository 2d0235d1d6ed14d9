/** A stable insertion sort on sequences, used where the source calls
    `Array.prototype.sort` (which is stable) with a comparator, together
    with the order-preserving subsequence relation of `filter`. */
module Sorting {

  /** `le` is a total preorder: any two elements compare, and comparison
      chains. */
  ghost predicate TotalPreorder<T(!new)>(le: (T, T) -> bool) {
    && (forall x, y :: le(x, y) || le(y, x))
    && (forall x, y, z :: le(x, y) && le(y, z) ==> le(x, z))
  }

  predicate SortedBy<T>(s: seq<T>, le: (T, T) -> bool) {
    forall i, j :: 0 <= i < j < |s| ==> le(s[i], s[j])
  }

  /** Insert `x` before the first element it may precede, so that `x`
      stays ahead of elements that compare equal to it. */
  function Insert<T(!new)>(x: T, s: seq<T>, le: (T, T) -> bool): (r: seq<T>)
    requires TotalPreorder(le) && SortedBy(s, le)
    ensures SortedBy(r, le)
    ensures multiset(r) == multiset(s) + multiset{x}
    ensures |r| == |s| + 1
    decreases |s|
  {
    if |s| == 0 || le(x, s[0]) then
      [x] + s
    else
      var rest := Insert(x, s[1..], le);
      assert s == [s[0]] + s[1..];
      forall k | 0 <= k < |rest|
        ensures le(s[0], rest[k])
      {
        assert rest[k] in multiset(rest);
        if rest[k] != x {
          assert rest[k] in multiset(s[1..]);
          var j :| 0 <= j < |s[1..]| && s[1..][j] == rest[k];
          assert s[j + 1] == rest[k];
        }
      }
      [s[0]] + rest
  }

  /** `s.sort(cmp)` where `le(a, b)` holds when `cmp(a, b) <= 0`. */
  function Sort<T(!new)>(s: seq<T>, le: (T, T) -> bool): (r: seq<T>)
    requires TotalPreorder(le)
    ensures SortedBy(r, le)
    ensures multiset(r) == multiset(s)
    ensures |r| == |s|
    decreases |s|
  {
    if |s| == 0 then []
    else
      assert s == [s[0]] + s[1..];
      Insert(s[0], Sort(s[1..], le), le)
  }

  /** `a` is `b` with some elements dropped and the rest in order. */
  predicate IsSubsequence<T(==)>(a: seq<T>, b: seq<T>)
    decreases |b|
  {
    |a| == 0 || (|b| > 0 && (if a[0] == b[0] then IsSubsequence(a[1..], b[1..]) else IsSubsequence(a, b[1..])))
  }

  /** Dropping the first element of `a` keeps it a subsequence. */
  lemma {:induction false} SubsequenceTail<T>(a: seq<T>, b: seq<T>)
    requires |a| > 0 && IsSubsequence(a, b)
    ensures IsSubsequence(a[1..], b)
    decreases |b|, 0
  {
    assert b == [b[0]] + b[1..];
    if a[0] != b[0] {
      SubsequenceTail(a, b[1..]);
    }
    SubsequenceSkip(a[1..], b[1..], b[0]);
  }

  /** An element put in front of `b` may be skipped. */
  lemma {:induction false} SubsequenceSkip<T>(a: seq<T>, b: seq<T>, x: T)
    requires IsSubsequence(a, b)
    ensures IsSubsequence(a, [x] + b)
    decreases |b|, 1
  {
    assert ([x] + b)[1..] == b;
    if |a| > 0 && a[0] == x {
      SubsequenceTail(a, b);
    }
  }

  /** `s.filter(keep)`: exactly the elements `keep` accepts, in order. */
  function Filter<T(!new)>(s: seq<T>, keep: T -> bool): (r: seq<T>)
    ensures forall x {:trigger x in r} {:trigger x in s} :: x in r <==> x in s && keep(x)
    ensures forall x {:trigger multiset(r)[x]} :: multiset(r)[x] == if keep(x) then multiset(s)[x] else 0
    ensures IsSubsequence(r, s)
    ensures |r| <= |s|
    decreases |s|
  {
    if |s| == 0 then []
    else
      var rest := Filter(s[1..], keep);
      assert s == [s[0]] + s[1..];
      if keep(s[0]) then
        var r := [s[0]] + rest;
        assert r[0] == s[0] && r[1..] == rest;
        r
      else
        SubsequenceSkip(rest, s[1..], s[0]);
        rest
  }

  /** A filter that accepts every element returns the sequence itself. */
  lemma {:induction false} FilterAll<T(!new)>(s: seq<T>, keep: T -> bool)
    requires forall i :: 0 <= i < |s| ==> keep(s[i])
    ensures Filter(s, keep) == s
    decreases |s|
  {
    if |s| > 0 {
      FilterAll(s[1..], keep);
      assert s == [s[0]] + s[1..];
    }
  }

  /** One step of `Filter`. */
  lemma FilterCons<T(!new)>(s: seq<T>, keep: T -> bool)
    requires |s| > 0
    ensures Filter(s, keep) == (if keep(s[0]) then [s[0]] else []) + Filter(s[1..], keep)
  {
  }

  /** A filter over a prefix is a prefix of the filter over the whole. */
  lemma {:induction false} FilterPrefix<T(!new)>(s: seq<T>, n: nat, keep: T -> bool)
    requires n <= |s|
    ensures var f := Filter(s[..n], keep); |f| <= |Filter(s, keep)| && f == Filter(s, keep)[..|f|]
    decreases |s|
  {
    if n > 0 {
      var a := s[..n];
      assert a[0] == s[0] && a[1..] == s[1..][..n - 1];
      FilterPrefix(s[1..], n - 1, keep);
      var f' := Filter(a[1..], keep);
      var g := Filter(s[1..], keep);
      assert |f'| <= |g| && f' == g[..|f'|];
      FilterCons(a, keep);
      FilterCons(s, keep);
      if keep(s[0]) {
        assert Filter(a, keep) == [s[0]] + f';
        assert Filter(s, keep) == [s[0]] + g;
        assert ([s[0]] + g)[..1 + |f'|] == [s[0]] + g[..|f'|];
      } else {
        assert Filter(a, keep) == f';
        assert Filter(s, keep) == g;
      }
    }
  }

  /** The elements `le` ranks level with `c`. */
  function SameKey<T>(le: (T, T) -> bool, c: T): T -> bool {
    z => le(z, c) && le(c, z)
  }

  /** Insertion puts `x` ahead of every element level with it. */
  lemma {:induction false} InsertFilter<T(!new)>(x: T, t: seq<T>, le: (T, T) -> bool, c: T)
    requires TotalPreorder(le) && SortedBy(t, le)
    ensures Filter(Insert(x, t, le), SameKey(le, c))
      == (if SameKey(le, c)(x) then [x] else []) + Filter(t, SameKey(le, c))
    decreases |t|
  {
    var keep := SameKey(le, c);
    var r := Insert(x, t, le);
    if |t| == 0 || le(x, t[0]) {
      assert r == [x] + t;
      assert r[1..] == t;
      FilterCons(r, keep);
    } else {
      var rest := Insert(x, t[1..], le);
      assert r == [t[0]] + rest;
      assert r[1..] == rest;
      InsertFilter(x, t[1..], le, c);
      FilterCons(r, keep);
      FilterCons(t, keep);
      if keep(x) {
        assert !keep(t[0]);
      }
    }
  }

  /** Sorting is stable: the elements level with any `c` come out in the
      order they went in. */
  lemma {:induction false} SortStable<T(!new)>(s: seq<T>, le: (T, T) -> bool, c: T)
    requires TotalPreorder(le)
    ensures Filter(Sort(s, le), SameKey(le, c)) == Filter(s, SameKey(le, c))
    decreases |s|
  {
    if |s| > 0 {
      SortStable(s[1..], le, c);
      InsertFilter(s[0], Sort(s[1..], le), le, c);
      FilterCons(s, SameKey(le, c));
    }
  }

  /** Filters that agree on every element agree. */
  lemma {:induction false} FilterSame<T(!new)>(s: seq<T>, k1: T -> bool, k2: T -> bool)
    requires forall x :: k1(x) == k2(x)
    ensures Filter(s, k1) == Filter(s, k2)
    decreases |s|
  {
    if |s| > 0 {
      FilterSame(s[1..], k1, k2);
      FilterCons(s, k1);
      FilterCons(s, k2);
    }
  }
}
