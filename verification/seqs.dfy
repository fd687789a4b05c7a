/** Sequence utilities shared by the views: left-to-right sums (`reduce`/`forEach`
    with `+=`), order-preserving filtering (`Array.prototype.filter`) and a
    descending sort by a numeric key (`Array.prototype.sort` with `(a, b) => key(b) - key(a)`). */
module Seqs {

  /** Sum of `f` over `s`, accumulated from the first element to the last. */
  function SumOf<T>(s: seq<T>, f: T -> real): real
  {
    if s == [] then 0.0 else SumOf(s[..|s| - 1], f) + f(s[|s| - 1])
  }

  lemma {:induction false} SumOfAppend<T>(s: seq<T>, t: seq<T>, f: T -> real)
    ensures SumOf(s + t, f) == SumOf(s, f) + SumOf(t, f)
    decreases |t|
  {
    if t == [] {
      assert s + t == s;
    } else {
      assert (s + t)[..|s + t| - 1] == s + t[..|t| - 1];
      SumOfAppend(s, t[..|t| - 1], f);
    }
  }

  /** A sum does not depend on the order of the summands. */
  lemma {:induction false} SumOfPermutation<T>(s: seq<T>, t: seq<T>, f: T -> real)
    requires multiset(s) == multiset(t)
    ensures SumOf(s, f) == SumOf(t, f)
    decreases |s|
  {
    if s == [] {
      assert |t| == |multiset(t)| == 0;
    } else {
      var x := s[|s| - 1];
      var s' := s[..|s| - 1];
      assert s == s' + [x];
      assert x in multiset(t);
      var j :| 0 <= j < |t| && t[j] == x;
      var t' := t[..j] + t[j + 1..];
      SumOfRemove(t, j, f);
      MultisetRemove(t, j);
      assert multiset(s) == multiset(s') + multiset{x};
      MultisetCancel(multiset(s'), multiset(t'), x);
      SumOfPermutation(s', t', f);
    }
  }

  /** Taking out one element takes its summand out of the sum. */
  lemma SumOfRemove<T>(t: seq<T>, j: nat, f: T -> real)
    requires j < |t|
    ensures SumOf(t, f) == SumOf(t[..j] + t[j + 1..], f) + f(t[j])
  {
    var a, x, b := t[..j], t[j], t[j + 1..];
    assert a + [x] == t[..j + 1];
    assert t[..j + 1] + b == t;
    SumOfAppend(t[..j + 1], b, f);
    SumOfAppend(a, b, f);
    assert SumOf(t[..j + 1], f) == SumOf(a, f) + f(x) by {
      assert t[..j + 1][..j] == a;
    }
  }

  lemma MultisetCancel<T>(a: multiset<T>, b: multiset<T>, x: T)
    requires a + multiset{x} == b + multiset{x}
    ensures a == b
  {
    assert a == (a + multiset{x}) - multiset{x};
    assert b == (b + multiset{x}) - multiset{x};
  }

  lemma MultisetRemove<T>(t: seq<T>, j: nat)
    requires j < |t|
    ensures multiset(t) == multiset(t[..j] + t[j + 1..]) + multiset{t[j]}
  {
    assert t == t[..j] + [t[j]] + t[j + 1..];
  }

  /** Appending one element adds its summand. */
  lemma SumOfSnoc<T>(s: seq<T>, x: T, f: T -> real)
    ensures SumOf(s + [x], f) == SumOf(s, f) + f(x)
  {
    assert (s + [x])[..|s|] == s;
  }

  /** Two sequences whose elements contribute the same summands, position by
      position, have the same sum. */
  lemma {:induction false} SumOfPointwise<T, U>(s: seq<T>, f: T -> real, t: seq<U>, g: U -> real)
    requires |s| == |t| && forall i :: 0 <= i < |s| ==> f(s[i]) == g(t[i])
    ensures SumOf(s, f) == SumOf(t, g)
    decreases |s|
  {
    if s != [] {
      SumOfPointwise(s[..|s| - 1], f, t[..|t| - 1], g);
    }
  }

  /** An element of a rearrangement of `s` mapped by `m` is the image of some
      element of `s`. */
  lemma MappedMember<T, U>(s: seq<T>, r: seq<U>, m: T -> U, q: seq<U>, x: U)
    requires |r| == |s| && forall i :: 0 <= i < |s| ==> r[i] == m(s[i])
    requires multiset(q) == multiset(r) && x in q
    ensures exists i :: 0 <= i < |s| && x == m(s[i])
  {
    assert x in multiset(r);
    var i :| 0 <= i < |r| && r[i] == x;
  }

  /** A sum of summands that are each no larger is no larger. */
  lemma {:induction false} SumOfMonotone<T>(s: seq<T>, f: T -> real, g: T -> real)
    requires forall i :: 0 <= i < |s| ==> f(s[i]) <= g(s[i])
    ensures SumOf(s, f) <= SumOf(s, g)
    decreases |s|
  {
    if s != [] {
      SumOfMonotone(s[..|s| - 1], f, g);
    }
  }

  /** Summing a pointwise difference is the difference of the sums. */
  lemma {:induction false} SumOfDifference<T>(s: seq<T>, f: T -> real, g: T -> real, h: T -> real)
    requires forall i :: 0 <= i < |s| ==> h(s[i]) == f(s[i]) - g(s[i])
    ensures SumOf(s, h) == SumOf(s, f) - SumOf(s, g)
    decreases |s|
  {
    if s != [] {
      SumOfDifference(s[..|s| - 1], f, g, h);
    }
  }

  /** `a` can be obtained from `b` by deleting elements: it keeps `b`'s order. */
  predicate IsSubsequence<T(==)>(a: seq<T>, b: seq<T>)
    decreases |b|
  {
    if a == [] then true
    else if b == [] then false
    else if a[|a| - 1] == b[|b| - 1] then IsSubsequence(a[..|a| - 1], b[..|b| - 1])
    else IsSubsequence(a, b[..|b| - 1])
  }

  /** The elements of `s` that satisfy `p`, in their original order. */
  function Filter<T(==)>(s: seq<T>, p: T -> bool): (r: seq<T>)
    ensures |r| <= |s|
    ensures forall i :: 0 <= i < |r| ==> r[i] in s && p(r[i])
    ensures forall i :: 0 <= i < |s| && p(s[i]) ==> s[i] in r
    ensures IsSubsequence(r, s)
    decreases |s|
  {
    if s == [] then []
    else
      var init := Filter(s[..|s| - 1], p);
      var last := s[|s| - 1];
      assert forall i :: 0 <= i < |s| - 1 ==> s[..|s| - 1][i] == s[i];
      if p(last) then
        assert (init + [last])[..|init + [last]| - 1] == init;
        init + [last]
      else
        init
  }

  /** Filtering keeps every occurrence of an element that passes and none of one
      that does not. */
  lemma {:induction false} FilterCounts<T(!new)>(s: seq<T>, p: T -> bool)
    ensures forall x :: multiset(Filter(s, p))[x] == if p(x) then multiset(s)[x] else 0
    decreases |s|
  {
    if s != [] {
      var init := s[..|s| - 1];
      var last := s[|s| - 1];
      FilterCounts(init, p);
      assert s == init + [last];
      assert multiset(s) == multiset(init) + multiset{last};
    }
  }

  /** Filtering with a predicate every element satisfies returns the input. */
  lemma {:induction false} FilterKeepsAll<T>(s: seq<T>, p: T -> bool)
    requires forall i :: 0 <= i < |s| ==> p(s[i])
    ensures Filter(s, p) == s
    decreases |s|
  {
    if s != [] {
      FilterKeepsAll(s[..|s| - 1], p);
      assert s == s[..|s| - 1] + [s[|s| - 1]];
    }
  }

  /** Summing over the elements that pass a filter is summing a function
      that is zero on the elements that do not. */
  lemma {:induction false} SumOfFilter<T>(s: seq<T>, p: T -> bool, f: T -> real, g: T -> real)
    requires forall i :: 0 <= i < |s| ==> g(s[i]) == if p(s[i]) then f(s[i]) else 0.0
    ensures SumOf(Filter(s, p), f) == SumOf(s, g)
    decreases |s|
  {
    if s != [] {
      var init := s[..|s| - 1];
      var last := s[|s| - 1];
      SumOfFilter(init, p, f, g);
      if p(last) {
        assert (Filter(init, p) + [last])[..|Filter(init, p) + [last]| - 1] == Filter(init, p);
      }
    }
  }

  /** The elements of `s` are in descending order of `key`. */
  ghost predicate SortedDesc<T>(s: seq<T>, key: T -> real)
  {
    forall i, j :: 0 <= i < j < |s| ==> key(s[i]) >= key(s[j])
  }

  /** Every element of a subsequence occurs in the sequence it was taken from. */
  lemma {:induction false} SubsequenceMembers<T>(a: seq<T>, b: seq<T>)
    requires IsSubsequence(a, b)
    ensures forall i :: 0 <= i < |a| ==> a[i] in b
    decreases |b|
  {
    if a != [] && b != [] {
      var b' := b[..|b| - 1];
      assert b == b' + [b[|b| - 1]];
      if a[|a| - 1] == b[|b| - 1] {
        var a' := a[..|a| - 1];
        SubsequenceMembers(a', b');
        assert forall i :: 0 <= i < |a| - 1 ==> a[i] == a'[i];
      } else {
        SubsequenceMembers(a, b');
      }
    }
  }

  /** Deleting elements from a sequence sorted in descending order leaves it sorted. */
  lemma {:induction false} SubsequenceSorted<T>(a: seq<T>, b: seq<T>, key: T -> real)
    requires IsSubsequence(a, b) && SortedDesc(b, key)
    ensures SortedDesc(a, key)
    decreases |b|
  {
    if a != [] && b != [] {
      var b' := b[..|b| - 1];
      var last := b[|b| - 1];
      assert SortedDesc(b', key) by {
        assert forall i :: 0 <= i < |b'| ==> b'[i] == b[i];
      }
      if a[|a| - 1] == last {
        var a' := a[..|a| - 1];
        SubsequenceSorted(a', b', key);
        SubsequenceMembers(a', b');
        forall i | 0 <= i < |a'| ensures key(a'[i]) >= key(last) {
          var k :| 0 <= k < |b'| && b'[k] == a'[i];
          assert b'[k] == b[k];
        }
        assert forall i :: 0 <= i < |a| - 1 ==> a[i] == a'[i];
      } else {
        SubsequenceSorted(a, b', key);
      }
    }
  }

  /** A bound on the keys of a sequence holds for every rearrangement of it. */
  lemma PermutationBound<T>(a: seq<T>, b: seq<T>, key: T -> real, bound: real)
    requires multiset(a) == multiset(b)
    requires forall i :: 0 <= i < |b| ==> key(b[i]) <= bound
    ensures forall j :: 0 <= j < |a| ==> key(a[j]) <= bound
  {
    forall j | 0 <= j < |a| ensures key(a[j]) <= bound {
      assert a[j] in multiset(b);
      var k :| 0 <= k < |b| && b[k] == a[j];
    }
  }

  /** Inserts `x` before the first element whose key is not larger than its own. */
  function InsertDesc<T>(x: T, r: seq<T>, key: T -> real): (q: seq<T>)
    requires SortedDesc(r, key)
    ensures multiset(q) == multiset(r) + multiset{x}
    ensures SortedDesc(q, key)
    decreases |r|
  {
    if r == [] then [x]
    else if key(x) >= key(r[0]) then
      InsertFirst(x, r, key);
      [x] + r
    else
      SortedTail(r, key);
      var rest := InsertDesc(x, r[1..], key);
      InsertPast(x, r, rest, key);
      [r[0]] + rest
  }

  lemma SortedTail<T>(r: seq<T>, key: T -> real)
    requires r != [] && SortedDesc(r, key)
    ensures SortedDesc(r[1..], key)
  {
    forall i, j | 0 <= i < j < |r| - 1 ensures key(r[1..][i]) >= key(r[1..][j]) {
      assert r[1..][i] == r[i + 1] && r[1..][j] == r[j + 1];
    }
  }

  /** The insertion step when `x` goes first. */
  lemma InsertFirst<T>(x: T, r: seq<T>, key: T -> real)
    requires r != [] && SortedDesc(r, key) && key(x) >= key(r[0])
    ensures SortedDesc([x] + r, key)
  {
    var q := [x] + r;
    forall i, j | 0 <= i < j < |q| ensures key(q[i]) >= key(q[j]) {
      if i == 0 {
        assert q[j] == r[j - 1];
      } else {
        assert q[i] == r[i - 1] && q[j] == r[j - 1];
      }
    }
  }

  /** The insertion step when `x` goes after the first element. */
  lemma InsertPast<T>(x: T, r: seq<T>, rest: seq<T>, key: T -> real)
    requires r != [] && SortedDesc(r, key) && key(x) < key(r[0])
    requires multiset(rest) == multiset(r[1..]) + multiset{x} && SortedDesc(rest, key)
    ensures multiset([r[0]] + rest) == multiset(r) + multiset{x}
    ensures SortedDesc([r[0]] + rest, key)
  {
    assert r == [r[0]] + r[1..];
    assert multiset(rest) == multiset(r[1..] + [x]);
    PermutationBound(rest, r[1..] + [x], key, key(r[0]));
    var q := [r[0]] + rest;
    forall i, j | 0 <= i < j < |q| ensures key(q[i]) >= key(q[j]) {
      if i == 0 {
        assert q[j] == rest[j - 1];
      } else {
        assert q[i] == rest[i - 1] && q[j] == rest[j - 1];
      }
    }
  }

  /** Insertion sort into descending order of `key`. */
  function SortDesc<T>(s: seq<T>, key: T -> real): (r: seq<T>)
    ensures multiset(r) == multiset(s)
    ensures SortedDesc(r, key)
    decreases |s|
  {
    if s == [] then []
    else
      assert s == [s[0]] + s[1..];
      InsertDesc(s[0], SortDesc(s[1..], key), key)
  }
}
