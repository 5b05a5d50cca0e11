/** Generic facts about sequences: subsequences, filtering and conditional sums. */
module Seqs {

  /** `r` can be obtained from `s` by deleting elements, keeping the order of the rest. */
  ghost predicate IsSubseq<T>(r: seq<T>, s: seq<T>)
    decreases |s|
  {
    if |r| == 0 then true
    else if |s| == 0 then false
    else (r[|r| - 1] == s[|s| - 1] && IsSubseq(r[..|r| - 1], s[..|s| - 1]))
         || IsSubseq(r, s[..|s| - 1])
  }

  /** Every element of a subsequence is an element of the sequence. */
  lemma {:induction false} SubseqMembers<T>(r: seq<T>, s: seq<T>)
    requires IsSubseq(r, s)
    ensures forall i :: 0 <= i < |r| ==> r[i] in s
    decreases |s|
  {
    if |r| > 0 && |s| > 0 {
      var r', s' := r[..|r| - 1], s[..|s| - 1];
      if r[|r| - 1] == s[|s| - 1] && IsSubseq(r', s') {
        SubseqMembers(r', s');
        assert forall i :: 0 <= i < |r'| ==> r[i] == r'[i];
      } else {
        SubseqMembers(r, s');
      }
    }
  }

  /** The predicate that holds of every element. */
  function All<T>(): T -> bool {
    x => true
  }

  /** No two elements of `s` have the same key. */
  ghost predicate UniqueKeys<T, K>(s: seq<T>, key: T -> K) {
    forall i, j :: 0 <= i < j < |s| ==> key(s[i]) != key(s[j])
  }

  /** The elements of `s` that satisfy `p`, in their order in `s` (a boolean mask over a table). */
  function Filter<T>(s: seq<T>, p: T -> bool): (r: seq<T>)
    ensures |r| <= |s|
    ensures forall i :: 0 <= i < |r| ==> r[i] in s && p(r[i])
    ensures forall i :: 0 <= i < |s| && p(s[i]) ==> s[i] in r
    ensures IsSubseq(r, s)
    decreases |s|
  {
    if |s| == 0 then []
    else
      var init := Filter(s[..|s| - 1], p);
      assert s == s[..|s| - 1] + [s[|s| - 1]];
      if p(s[|s| - 1]) then
        var r := init + [s[|s| - 1]];
        assert r[..|r| - 1] == init;
        r
      else init
  }

  /** Filtering keeps every copy of an element that satisfies `p` and drops every copy of one
      that does not. */
  lemma {:induction false} FilterCounts<T>(s: seq<T>, p: T -> bool)
    ensures forall x :: multiset(Filter(s, p))[x] == if p(x) then multiset(s)[x] else 0
    decreases |s|
  {
    if |s| > 0 {
      var init := s[..|s| - 1];
      FilterCounts(init, p);
      assert s == init + [s[|s| - 1]];
    }
  }

  /** Concatenate `f(x)` over the elements `x` of `s`, in order. */
  function FlatMap<T, U>(s: seq<T>, f: T -> seq<U>): seq<U>
    decreases |s|
  {
    if |s| == 0 then []
    else FlatMap(s[..|s| - 1], f) + f(s[|s| - 1])
  }

  lemma {:induction false} FlatMapAppend<T, U>(a: seq<T>, b: seq<T>, f: T -> seq<U>)
    ensures FlatMap(a + b, f) == FlatMap(a, f) + FlatMap(b, f)
    decreases |b|
  {
    if |b| == 0 {
      assert a + b == a;
    } else {
      var b' := b[..|b| - 1];
      assert (a + b)[..|a + b| - 1] == a + b';
      FlatMapAppend(a, b', f);
    }
  }

  /** The block contributed by `s[i]` sits between the blocks of the elements before and after it. */
  lemma {:induction false} FlatMapAt<T, U>(s: seq<T>, i: nat, f: T -> seq<U>)
    requires i < |s|
    ensures FlatMap(s, f) == FlatMap(s[..i], f) + f(s[i]) + FlatMap(s[i + 1..], f)
  {
    var pre, x, post := s[..i], s[i], s[i + 1..];
    assert s == (pre + [x]) + post;
    calc {
      FlatMap(s, f);
    == { FlatMapAppend(pre + [x], post, f); }
      FlatMap(pre + [x], f) + FlatMap(post, f);
    == { FlatMapAppend(pre, [x], f); FlatMapSingle(x, f); }
      FlatMap(pre, f) + f(x) + FlatMap(post, f);
    }
  }

  lemma FlatMapSingle<T, U>(x: T, f: T -> seq<U>)
    ensures FlatMap([x], f) == f(x)
  {
    assert [x][..0] == [];
  }

  /** The sum of `v` over the elements of `s` that satisfy `p`. */
  function Sum<T>(s: seq<T>, p: T -> bool, v: T -> real): real
    decreases |s|
  {
    if |s| == 0 then 0.0
    else Sum(s[..|s| - 1], p, v) + (if p(s[|s| - 1]) then v(s[|s| - 1]) else 0.0)
  }

  lemma {:induction false} SumAppend<T>(a: seq<T>, b: seq<T>, p: T -> bool, v: T -> real)
    ensures Sum(a + b, p, v) == Sum(a, p, v) + Sum(b, p, v)
    decreases |b|
  {
    if |b| == 0 {
      assert a + b == a;
    } else {
      var b' := b[..|b| - 1];
      assert (a + b)[..|a + b| - 1] == a + b';
      SumAppend(a, b', p, v);
    }
  }

  /** Summing under two predicates that agree on every element gives the same total. */
  lemma {:induction false} SumExt<T>(s: seq<T>, p: T -> bool, q: T -> bool, v: T -> real)
    requires forall x :: x in s ==> p(x) == q(x)
    ensures Sum(s, p, v) == Sum(s, q, v)
    decreases |s|
  {
    if |s| > 0 {
      SumExt(s[..|s| - 1], p, q, v);
    }
  }

  /** A sum under a predicate that nothing in `s` satisfies is zero. */
  lemma {:induction false} SumNone<T>(s: seq<T>, p: T -> bool, v: T -> real)
    requires forall x :: x in s ==> !p(x)
    ensures Sum(s, p, v) == 0.0
    decreases |s|
  {
    if |s| > 0 {
      SumNone(s[..|s| - 1], p, v);
    }
  }

  /** A sum under a disjunction of two disjoint predicates splits into the two sums. */
  lemma {:induction false} SumDisjoint<T>(s: seq<T>, p: T -> bool, q: T -> bool, pq: T -> bool, v: T -> real)
    requires forall x :: x in s ==> (pq(x) <==> p(x) || q(x))
    requires forall x :: x in s ==> !(p(x) && q(x))
    ensures Sum(s, pq, v) == Sum(s, p, v) + Sum(s, q, v)
    decreases |s|
  {
    if |s| > 0 {
      SumDisjoint(s[..|s| - 1], p, q, pq, v);
    }
  }

  /** Summing over a filtered sequence is summing under the conjunction of both predicates. */
  lemma {:induction false} SumFilter<T>(s: seq<T>, q: T -> bool, p: T -> bool, pq: T -> bool, v: T -> real)
    requires forall x :: x in s ==> (pq(x) <==> p(x) && q(x))
    ensures Sum(Filter(s, q), p, v) == Sum(s, pq, v)
    decreases |s|
  {
    if |s| > 0 {
      var s' := s[..|s| - 1];
      SumFilter(s', q, p, pq, v);
      if q(s[|s| - 1]) {
        var f := Filter(s', q) + [s[|s| - 1]];
        assert f[..|f| - 1] == Filter(s', q);
      }
    }
  }

  /** Two columns that agree row by row have the same total. */
  lemma {:induction false} SumPointwise<A, B>(a: seq<A>, u: A -> real, b: seq<B>, w: B -> real)
    requires |a| == |b|
    requires forall i :: 0 <= i < |a| ==> u(a[i]) == w(b[i])
    ensures Sum(a, All(), u) == Sum(b, All(), w)
    decreases |a|
  {
    if |a| > 0 {
      SumPointwise(a[..|a| - 1], u, b[..|b| - 1], w);
    }
  }

  /** A column whose every entry is the matching entry of another divided by `c`
      totals the other column's total divided by `c`. */
  lemma {:induction false} SumDivided<A, B>(a: seq<A>, u: A -> real, b: seq<B>, w: B -> real, c: real)
    requires c != 0.0
    requires |a| == |b|
    requires forall i :: 0 <= i < |a| ==> w(b[i]) == u(a[i]) / c
    ensures Sum(b, All(), w) == Sum(a, All(), u) / c
    decreases |a|
  {
    if |a| > 0 {
      var n := |a| - 1;
      SumDivided(a[..n], u, b[..n], w, c);
      var x, y := Sum(a[..n], All(), u), u(a[n]);
      assert x / c + y / c == (x + y) / c;
    }
  }
  /** A column that is the difference of two others totals their difference. */
  lemma {:induction false} SumDifference<T>(s: seq<T>, d: T -> real, u: T -> real, w: T -> real)
    requires forall i :: 0 <= i < |s| ==> d(s[i]) == u(s[i]) - w(s[i])
    ensures Sum(s, All(), d) == Sum(s, All(), u) - Sum(s, All(), w)
    decreases |s|
  {
    if |s| > 0 {
      SumDifference(s[..|s| - 1], d, u, w);
    }
  }
  /** Dividing every entry of a column by its nonzero total gives a column that sums to one. */
  lemma SumNormalized<A, B>(a: seq<A>, u: A -> real, b: seq<B>, w: B -> real)
    requires Sum(a, All(), u) != 0.0
    requires |a| == |b|
    requires forall i :: 0 <= i < |a| ==> w(b[i]) == u(a[i]) / Sum(a, All(), u)
    ensures Sum(b, All(), w) == 1.0
  {
    var c := Sum(a, All(), u);
    SumDivided(a, u, b, w, c);
    DivSelf(c);
  }
  /** Scaling a column by a nonzero constant scales every filtered total by it. */
  lemma {:induction false} SumScaled<T>(s: seq<T>, p: T -> bool, u: T -> real, w: T -> real, c: real)
    requires c != 0.0
    requires forall i :: 0 <= i < |s| ==> w(s[i]) == u(s[i]) / c
    ensures Sum(s, p, w) == Sum(s, p, u) / c
    decreases |s|
  {
    if |s| > 0 {
      SumScaled(s[..|s| - 1], p, u, w, c);
    }
  }

  lemma DivSelf(c: real)
    requires c != 0.0
    ensures c / c == 1.0
  {
  }
}
