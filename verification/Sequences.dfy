/** Sequence vocabulary shared by the models: subsequences, removal, filtering, order. */
module Sequences {

  datatype Option<+T> = None | Some(value: T)

  function Max(a: int, b: int): int {
    if a < b then b else a
  }

  /** `a` can be obtained from `b` by deleting elements. */
  predicate IsSubsequence<T(==)>(a: seq<T>, b: seq<T>) {
    if a == [] then true
    else if b == [] then false
    else if a[0] == b[0] then IsSubsequence(a[1..], b[1..])
    else IsSubsequence(a, b[1..])
  }

  ghost predicate Distinct<T>(s: seq<T>) {
    forall i, j :: 0 <= i < j < |s| ==> s[i] != s[j]
  }

  /** `s` with every occurrence of `x` removed. */
  function Without<T(==)>(s: seq<T>, x: T): seq<T> {
    if s == [] then []
    else if s[0] == x then Without(s[1..], x)
    else [s[0]] + Without(s[1..], x)
  }

  ghost function ToSet<T>(s: seq<T>): set<T> {
    set x | x in s
  }

  /** The elements of `s` that satisfy `p`, in order. */
  function Filter<T>(s: seq<T>, p: T -> bool): seq<T> {
    if s == [] then []
    else if p(s[0]) then [s[0]] + Filter(s[1..], p)
    else Filter(s[1..], p)
  }

  function Last<T>(s: seq<T>): T
    requires s != []
  {
    s[|s| - 1]
  }

  function DropLast<T>(s: seq<T>): seq<T>
    requires s != []
  {
    s[..|s| - 1]
  }

  lemma ConsConcat<T>(x: T, p: seq<T>, q: seq<T>)
    ensures ([x] + p) + q == [x] + (p + q)
  {
  }

  lemma DropLastCons<T>(x: T, s: seq<T>)
    requires s != []
    ensures DropLast([x] + s) == [x] + DropLast(s)
  {
  }

  lemma {:induction false} SubsequenceOfItself<T>(a: seq<T>)
    ensures IsSubsequence(a, a)
  {
    if a != [] {
      SubsequenceOfItself(a[1..]);
    }
  }

  lemma {:induction false} SubsequenceDropHead<T>(a: seq<T>, b: seq<T>)
    requires a != [] && IsSubsequence(a, b)
    ensures IsSubsequence(a[1..], b)
    decreases |b|, 0
  {
    assert [b[0]] + b[1..] == b;
    if a[0] != b[0] {
      SubsequenceDropHead(a, b[1..]);
    }
    SubsequenceConsRight(a[1..], b[1..], b[0]);
  }

  lemma {:induction false} SubsequenceConsRight<T>(a: seq<T>, b: seq<T>, x: T)
    requires IsSubsequence(a, b)
    ensures IsSubsequence(a, [x] + b)
    decreases |b|, 1
  {
    assert ([x] + b)[1..] == b;
    if a != [] && a[0] == x {
      SubsequenceDropHead(a, b);
    }
  }

  lemma {:induction false} SubsequenceConsBoth<T>(a: seq<T>, b: seq<T>, x: T)
    requires IsSubsequence(a, b)
    ensures IsSubsequence([x] + a, [x] + b)
  {
    assert ([x] + a)[1..] == a && ([x] + b)[1..] == b;
  }

  lemma {:induction false} SubsequenceAppendRight<T>(a: seq<T>, b: seq<T>, x: T)
    requires IsSubsequence(a, b)
    ensures IsSubsequence(a, b + [x])
  {
    if a != [] {
      assert (b + [x])[1..] == b[1..] + [x];
      if a[0] == b[0] {
        SubsequenceAppendRight(a[1..], b[1..], x);
      } else {
        SubsequenceAppendRight(a, b[1..], x);
      }
    }
  }

  lemma {:induction false} SubsequenceAppendBoth<T>(a: seq<T>, b: seq<T>, x: T)
    requires IsSubsequence(a, b)
    ensures IsSubsequence(a + [x], b + [x])
  {
    if a == [] {
      LastIsSubsequence(b, x);
      assert a + [x] == [x];
    } else {
      assert (a + [x])[1..] == a[1..] + [x];
      assert (b + [x])[1..] == b[1..] + [x];
      if a[0] == b[0] {
        SubsequenceAppendBoth(a[1..], b[1..], x);
      } else {
        SubsequenceAppendBoth(a, b[1..], x);
      }
    }
  }

  lemma {:induction false} LastIsSubsequence<T>(b: seq<T>, x: T)
    ensures IsSubsequence([x], b + [x])
  {
    if b == [] {
      assert b + [x] == [x];
      SubsequenceOfItself([x]);
    } else {
      assert (b + [x])[1..] == b[1..] + [x];
      if b[0] != x {
        LastIsSubsequence(b[1..], x);
      } else {
        assert [x][1..] == [];
      }
    }
  }

  lemma {:induction false} SubsequenceMembers<T>(a: seq<T>, b: seq<T>, x: T)
    requires IsSubsequence(a, b) && x in a
    ensures x in b
  {
    if a[0] == b[0] {
      if x != a[0] {
        assert x in a[1..];
        SubsequenceMembers(a[1..], b[1..], x);
      }
    } else {
      SubsequenceMembers(a, b[1..], x);
    }
  }

  lemma {:induction false} SubsequenceLength<T>(a: seq<T>, b: seq<T>)
    requires IsSubsequence(a, b)
    ensures |a| <= |b|
  {
    if a != [] {
      if a[0] == b[0] {
        SubsequenceLength(a[1..], b[1..]);
      } else {
        SubsequenceLength(a, b[1..]);
      }
    }
  }

  /** A subsequence that is not shorter is the whole sequence. */
  lemma {:induction false} SubsequenceSameLength<T>(a: seq<T>, b: seq<T>)
    requires IsSubsequence(a, b) && |a| == |b|
    ensures a == b
  {
    if a != [] {
      if a[0] == b[0] {
        SubsequenceSameLength(a[1..], b[1..]);
        assert a == [a[0]] + a[1..] && b == [b[0]] + b[1..];
      } else {
        SubsequenceLength(a, b[1..]);
      }
    }
  }

  lemma {:induction false} DropLastIsSubsequence<T>(a: seq<T>, b: seq<T>)
    requires IsSubsequence(a, b) && a != []
    ensures IsSubsequence(DropLast(a), b)
  {
    if a[0] == b[0] {
      if |a| > 1 {
        assert DropLast(a)[1..] == DropLast(a[1..]);
        DropLastIsSubsequence(a[1..], b[1..]);
      }
    } else {
      DropLastIsSubsequence(a, b[1..]);
      if |a| > 1 {
        assert DropLast(a)[0] == a[0];
      }
    }
  }

  /** Dropping the last element of the longer sequence is harmless unless it is the other's last too. */
  lemma {:induction false} SubsequenceDropLast<T>(a: seq<T>, b: seq<T>)
    requires IsSubsequence(a, b) && b != []
    ensures a == [] || Last(a) != Last(b) ==> IsSubsequence(a, DropLast(b))
    ensures a != [] ==> IsSubsequence(DropLast(a), DropLast(b))
  {
    if a == [] {
    } else if |b| == 1 {
      assert a == [b[0]] by {
        SubsequenceLength(a, b);
        SubsequenceSameLength(a, b);
      }
    } else {
      assert DropLast(b)[1..] == DropLast(b[1..]);
      if a[0] == b[0] {
        SubsequenceDropLast(a[1..], b[1..]);
        if |a| > 1 {
          assert DropLast(a)[1..] == DropLast(a[1..]);
        }
      } else {
        SubsequenceDropLast(a, b[1..]);
        if |a| > 1 {
          assert DropLast(a)[0] == a[0];
        }
      }
    }
  }

  lemma {:induction false} WithoutMembers<T>(s: seq<T>, x: T)
    ensures x !in Without(s, x)
    ensures forall y :: y in Without(s, x) <==> y in s && y != x
    ensures |Without(s, x)| <= |s|
    ensures x in s ==> |Without(s, x)| < |s|
    ensures x !in s ==> Without(s, x) == s
  {
    if s != [] {
      WithoutMembers(s[1..], x);
      assert s == [s[0]] + s[1..];
    }
  }

  lemma {:induction false} WithoutDistinct<T>(s: seq<T>, x: T)
    requires Distinct(s)
    ensures Distinct(Without(s, x))
    ensures x in s ==> |Without(s, x)| == |s| - 1
  {
    if s != [] {
      WithoutDistinct(s[1..], x);
      WithoutMembers(s[1..], x);
      assert s == [s[0]] + s[1..];
      assert s[0] !in s[1..];
    }
  }

  lemma {:induction false} WithoutIsSubsequence<T>(s: seq<T>, x: T)
    ensures IsSubsequence(Without(s, x), s)
  {
    if s != [] {
      WithoutIsSubsequence(s[1..], x);
      if s[0] == x {
        SubsequenceConsRight(Without(s[1..], x), s[1..], x);
        assert [s[0]] + s[1..] == s;
      } else {
        SubsequenceConsBoth(Without(s[1..], x), s[1..], s[0]);
        assert [s[0]] + s[1..] == s;
      }
    }
  }

  lemma {:induction false} WithoutBoth<T>(a: seq<T>, b: seq<T>, x: T)
    requires IsSubsequence(a, b)
    ensures IsSubsequence(Without(a, x), Without(b, x))
  {
    if a == [] {
    } else if a[0] == b[0] {
      WithoutBoth(a[1..], b[1..], x);
      if a[0] != x {
        SubsequenceConsBoth(Without(a[1..], x), Without(b[1..], x), a[0]);
      }
    } else {
      WithoutBoth(a, b[1..], x);
      if b[0] != x {
        SubsequenceConsRight(Without(a, x), Without(b[1..], x), b[0]);
      }
    }
  }

  lemma {:induction false} FilterMembers<T>(s: seq<T>, p: T -> bool)
    ensures forall y :: y in Filter(s, p) <==> y in s && p(y)
    ensures |Filter(s, p)| <= |s|
    ensures (forall y :: y in s ==> p(y)) ==> Filter(s, p) == s
  {
    if s != [] {
      FilterMembers(s[1..], p);
      assert s == [s[0]] + s[1..];
    }
  }

  lemma {:induction false} FilterDistinct<T>(s: seq<T>, p: T -> bool)
    requires Distinct(s)
    ensures Distinct(Filter(s, p))
  {
    if s != [] {
      FilterDistinct(s[1..], p);
      FilterMembers(s[1..], p);
      assert s[0] !in s[1..];
    }
  }

  lemma {:induction false} FilterIsSubsequence<T>(s: seq<T>, p: T -> bool)
    ensures IsSubsequence(Filter(s, p), s)
  {
    if s != [] {
      FilterIsSubsequence(s[1..], p);
      assert [s[0]] + s[1..] == s;
      if p(s[0]) {
        SubsequenceConsBoth(Filter(s[1..], p), s[1..], s[0]);
      } else {
        SubsequenceConsRight(Filter(s[1..], p), s[1..], s[0]);
      }
    }
  }

  lemma {:induction false} FilterAppend<T>(s: seq<T>, x: T, p: T -> bool)
    ensures Filter(s + [x], p) == Filter(s, p) + (if p(x) then [x] else [])
  {
    if s == [] {
      assert s + [x] == [x];
    } else {
      assert (s + [x])[1..] == s[1..] + [x];
      FilterAppend(s[1..], x, p);
    }
  }

  lemma {:induction false} FilterFilter<T>(s: seq<T>, p: T -> bool, q: T -> bool)
    requires forall x :: x in s && q(x) ==> p(x)
    ensures Filter(Filter(s, p), q) == Filter(s, q)
  {
    if s != [] {
      assert s[0] in s;
      FilterFilter(s[1..], p, q);
    }
  }

  lemma {:induction false} DistinctCounts<T>(s: seq<T>)
    requires Distinct(s)
    ensures forall x :: multiset(s)[x] <= 1
  {
    if s != [] {
      assert s == [s[0]] + s[1..];
      DistinctCounts(s[1..]);
      assert s[0] !in s[1..];
    }
  }

  lemma {:induction false} CountsDistinct<T>(s: seq<T>)
    requires forall x :: multiset(s)[x] <= 1
    ensures Distinct(s)
  {
    forall i, j | 0 <= i < j < |s|
      ensures s[i] != s[j]
    {
      assert s == s[..j] + s[j..];
      assert multiset(s) == multiset(s[..j]) + multiset(s[j..]);
      assert s[..j][i] == s[i] && s[j..][0] == s[j];
      assert s[i] in multiset(s[..j]) && s[j] in multiset(s[j..]);
      assert multiset(s)[s[i]] == multiset(s[..j])[s[i]] + multiset(s[j..])[s[i]];
    }
  }

  lemma {:induction false} SizeOfToSet<T>(s: seq<T>)
    ensures |ToSet(s)| <= |s|
    ensures |ToSet(s)| == |s| <==> Distinct(s)
  {
    if s != [] {
      SizeOfToSet(s[1..]);
      assert ToSet(s) == ToSet(s[1..]) + {s[0]};
      if s[0] !in s[1..] {
        assert s[0] !in ToSet(s[1..]);
      } else {
        assert ToSet(s) == ToSet(s[1..]);
        var i :| 0 <= i < |s[1..]| && s[1..][i] == s[0];
        assert s[i + 1] == s[0];
      }
      if Distinct(s) {
        assert Distinct(s[1..]);
      }
    }
  }

  /** A permutation has the same members, and distinct ones if the original has. */
  lemma {:induction false} Permutation<T>(a: seq<T>, b: seq<T>)
    requires multiset(a) == multiset(b)
    ensures forall x :: x in a <==> x in b
    ensures Distinct(a) ==> Distinct(b)
  {
    forall x
      ensures x in a <==> x in b
    {
      assert x in a <==> x in multiset(a);
      assert x in b <==> x in multiset(b);
    }
    if Distinct(a) {
      DistinctCounts(a);
      CountsDistinct(b);
    }
  }

  // ------------------------------------------------------------------ sorting

  ghost predicate TotalOrder<T(!new)>(leq: (T, T) -> bool) {
    && (forall a, b :: leq(a, b) || leq(b, a))
    && (forall a, b, c :: leq(a, b) && leq(b, c) ==> leq(a, c))
  }

  ghost predicate SortedBy<T>(s: seq<T>, leq: (T, T) -> bool) {
    forall i, j :: 0 <= i < j < |s| ==> leq(s[i], s[j])
  }

  /** Stands for the sort package: its callers rely on no more than a sorted permutation. */
  method SortBy<T(!new)>(s: seq<T>, leq: (T, T) -> bool) returns (sorted: seq<T>)
    requires TotalOrder(leq)
    ensures multiset(sorted) == multiset(s) && SortedBy(sorted, leq)
  {
    sorted := [];
    for n := 0 to |s|
      invariant multiset(sorted) == multiset(s[..n]) && SortedBy(sorted, leq)
    {
      var i := 0;
      while i < |sorted| && leq(sorted[i], s[n])
        invariant 0 <= i <= |sorted|
        invariant forall j :: 0 <= j < i ==> leq(sorted[j], s[n])
      {
        i := i + 1;
      }
      assert s[..n + 1] == s[..n] + [s[n]];
      InsertSorted(sorted, i, s[n], leq);
      sorted := sorted[..i] + [s[n]] + sorted[i..];
    }
    assert s[..|s|] == s;
  }

  lemma {:induction false} InsertSorted<T(!new)>(s: seq<T>, i: nat, x: T, leq: (T, T) -> bool)
    requires TotalOrder(leq) && SortedBy(s, leq) && i <= |s|
    requires forall j :: 0 <= j < i ==> leq(s[j], x)
    requires i < |s| ==> leq(x, s[i])
    ensures SortedBy(s[..i] + [x] + s[i..], leq)
    ensures multiset(s[..i] + [x] + s[i..]) == multiset(s) + multiset{x}
  {
    assert multiset(s) == multiset(s[..i]) + multiset(s[i..]) by { assert s == s[..i] + s[i..]; }
    var r := s[..i] + [x] + s[i..];
    forall k | i <= k < |s|
      ensures leq(x, s[k])
    {
      if k > i {
        assert leq(s[i], s[k]);
      }
    }
    forall a, b | 0 <= a < b < |r|
      ensures leq(r[a], r[b])
    {
      if b < i {
        assert r[a] == s[a] && r[b] == s[b];
      } else if b == i {
        assert r[a] == s[a];
      } else if a < i {
        assert r[a] == s[a] && r[b] == s[b - 1];
      } else if a == i {
        assert r[b] == s[b - 1];
      } else {
        assert r[a] == s[a - 1] && r[b] == s[b - 1];
      }
    }
  }
}
