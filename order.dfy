/** Orders, sorting and top-n selection, as pandas' `sort_values`, `nlargest`,
    `sorted(... unique())` and the key order of `groupby` use them. */
module Order {

  ghost predicate StrictTotalOrder<K(!new)>(lt: (K, K) -> bool) {
    && (forall a :: !lt(a, a))
    && (forall a, b, c :: lt(a, b) && lt(b, c) ==> lt(a, c))
    && (forall a, b :: a != b ==> lt(a, b) || lt(b, a))
  }

  function IntLess(a: int, b: int): bool {
    a < b
  }

  /** Python's order on `str`: lexicographic by code point, a proper prefix first. */
  predicate StrLess(a: string, b: string) {
    |b| > 0 && (|a| == 0 || a[0] < b[0] || (a[0] == b[0] && StrLess(a[1..], b[1..])))
  }

  lemma IntLessIsStrictTotal()
    ensures StrictTotalOrder(IntLess)
  {
  }

  lemma {:induction false} StrLessIrreflexive(a: string)
    ensures !StrLess(a, a)
  {
    if |a| > 0 {
      StrLessIrreflexive(a[1..]);
    }
  }

  lemma {:induction false} StrLessTransitive(a: string, b: string, c: string)
    requires StrLess(a, b) && StrLess(b, c)
    ensures StrLess(a, c)
  {
    if |a| > 0 && a[0] == b[0] && b[0] == c[0] {
      StrLessTransitive(a[1..], b[1..], c[1..]);
    }
  }

  lemma {:induction false} StrLessTotal(a: string, b: string)
    requires a != b
    ensures StrLess(a, b) || StrLess(b, a)
  {
    if |a| > 0 && |b| > 0 && a[0] == b[0] {
      assert a == [a[0]] + a[1..] && b == [b[0]] + b[1..];
      StrLessTotal(a[1..], b[1..]);
    }
  }

  lemma StrLessIsStrictTotal()
    ensures StrictTotalOrder(StrLess)
  {
    forall a | true ensures !StrLess(a, a) {
      StrLessIrreflexive(a);
    }
    forall a, b, c | StrLess(a, b) && StrLess(b, c) ensures StrLess(a, c) {
      StrLessTransitive(a, b, c);
    }
    forall a, b | a != b ensures StrLess(a, b) || StrLess(b, a) {
      StrLessTotal(a, b);
    }
  }

  ghost predicate StrictlyIncreasing<K>(s: seq<K>, lt: (K, K) -> bool) {
    forall i, j :: 0 <= i < j < |s| ==> lt(s[i], s[j])
  }

  /** A strictly increasing sequence has no repeated element. */
  lemma StrictlyIncreasingIsDistinct<K(!new)>(s: seq<K>, lt: (K, K) -> bool)
    requires StrictTotalOrder(lt) && StrictlyIncreasing(s, lt)
    ensures forall i, j :: 0 <= i < j < |s| ==> s[i] != s[j]
  {
  }

  /** Insert `x` into a strictly increasing sequence, unless it is already there. */
  function Insert<K(==,!new)>(x: K, s: seq<K>, lt: (K, K) -> bool): (r: seq<K>)
    requires StrictTotalOrder(lt) && StrictlyIncreasing(s, lt)
    ensures StrictlyIncreasing(r, lt)
    ensures forall y :: y in r <==> y == x || y in s
    decreases |s|
  {
    if |s| == 0 then [x]
    else if x == s[0] then s
    else if lt(x, s[0]) then [x] + s
    else
      var t := Insert(x, s[1..], lt);
      assert forall y :: y in s[1..] ==> lt(s[0], y);
      [s[0]] + t
  }

  /** `sorted(set(s))`: the distinct elements of `s` in increasing order. */
  function SortedUnique<K(==,!new)>(s: seq<K>, lt: (K, K) -> bool): (r: seq<K>)
    requires StrictTotalOrder(lt)
    ensures StrictlyIncreasing(r, lt)
    ensures forall y :: y in r <==> y in s
    decreases |s|
  {
    if |s| == 0 then []
    else
      var r := Insert(s[|s| - 1], SortedUnique(s[..|s| - 1], lt), lt);
      assert s == s[..|s| - 1] + [s[|s| - 1]];
      r
  }

  ghost predicate NonIncreasing<T>(s: seq<T>, score: T -> real) {
    forall i, j :: 0 <= i < j < |s| ==> score(s[i]) >= score(s[j])
  }

  /** Insert `x` before the first element that does not score higher. */
  function InsertDesc<T>(x: T, s: seq<T>, score: T -> real): (r: seq<T>)
    requires NonIncreasing(s, score)
    ensures NonIncreasing(r, score)
    ensures multiset(r) == multiset(s) + multiset{x}
    ensures forall i :: 0 <= i < |r| ==> r[i] == x || r[i] in s
    decreases |s|
  {
    if |s| == 0 then [x]
    else if score(x) >= score(s[0]) then [x] + s
    else
      var t := InsertDesc(x, s[1..], score);
      InsertDescBehind(x, s, t, score);
      [s[0]] + t
  }

  /** When `x` scores lower than the head of `s`, the head stays in front of `x` inserted into the rest. */
  lemma InsertDescBehind<T>(x: T, s: seq<T>, t: seq<T>, score: T -> real)
    requires |s| > 0 && NonIncreasing(s, score) && score(x) < score(s[0])
    requires NonIncreasing(t, score) && multiset(t) == multiset(s[1..]) + multiset{x}
    requires forall i :: 0 <= i < |t| ==> t[i] == x || t[i] in s[1..]
    ensures NonIncreasing([s[0]] + t, score)
    ensures multiset([s[0]] + t) == multiset(s) + multiset{x}
    ensures forall i :: 0 <= i < |[s[0]] + t| ==> ([s[0]] + t)[i] == x || ([s[0]] + t)[i] in s
  {
    assert s == [s[0]] + s[1..];
    var r := [s[0]] + t;
    forall i | 0 < i < |r|
      ensures score(r[0]) >= score(r[i])
    {
      assert r[i] == t[i - 1];
      if t[i - 1] != x {
        var j :| 0 <= j < |s[1..]| && s[1..][j] == t[i - 1];
        assert s[j + 1] == t[i - 1];
      }
    }
    forall i, j | 0 < i < j < |r|
      ensures score(r[i]) >= score(r[j])
    {
      assert r[i] == t[i - 1] && r[j] == t[j - 1];
    }
  }

  /** Sort by `score`, highest first. */
  function SortDesc<T>(s: seq<T>, score: T -> real): (r: seq<T>)
    ensures NonIncreasing(r, score)
    ensures multiset(r) == multiset(s)
    decreases |s|
  {
    if |s| == 0 then []
    else
      assert s == [s[0]] + s[1..];
      InsertDesc(s[0], SortDesc(s[1..], score), score)
  }

  function Min(a: nat, b: nat): nat {
    if a < b then a else b
  }

  /** `nlargest(n)`: the `n` highest-scoring elements of `s` (all of them when there are
      fewer), highest first. */
  function Largest<T>(s: seq<T>, n: nat, score: T -> real): (r: seq<T>)
    ensures |r| == Min(n, |s|)
    ensures NonIncreasing(r, score)
    ensures multiset(r) <= multiset(s)
    ensures forall i :: 0 <= i < |r| ==> r[i] in s
    ensures |r| > 0 ==> forall x :: x in multiset(s) - multiset(r) ==> score(x) <= score(r[|r| - 1])
  {
    var sorted := SortDesc(s, score);
    var m := Min(n, |s|);
    LargestSelects(s, sorted, m, score);
    sorted[..m]
  }

  lemma LargestSelects<T>(s: seq<T>, sorted: seq<T>, m: nat, score: T -> real)
    requires m <= |sorted|
    requires NonIncreasing(sorted, score)
    requires multiset(sorted) == multiset(s)
    ensures multiset(sorted[..m]) <= multiset(sorted)
    ensures forall i :: 0 <= i < m ==> sorted[i] in s
    ensures m > 0 ==> forall x :: x in multiset(sorted) - multiset(sorted[..m]) ==> score(x) <= score(sorted[m - 1])
  {
    assert sorted == sorted[..m] + sorted[m..];
    assert multiset(sorted) == multiset(sorted[..m]) + multiset(sorted[m..]);
    forall i | 0 <= i < m
      ensures sorted[i] in s
    {
      assert sorted[i] in multiset(s);
    }
    if m > 0 {
      forall x | x in multiset(sorted) - multiset(sorted[..m])
        ensures score(x) <= score(sorted[m - 1])
      {
        assert x in multiset(sorted[m..]);
        assert x in sorted[m..];
        var j :| m <= j < |sorted| && sorted[j] == x;
      }
    }
  }
}
