/** `groupby(...).sum()` and `unstack()` over the trade table. A group key is read from a
    row by a key function; a row whose key is missing (NaN) belongs to no group, as in
    pandas. Groups come out in increasing key order. */
module Grouping {
  import opened Wrappers
  import opened Seqs
  import opened Order
  import opened Records

  function IsFlow(f: string): TradeRow -> bool {
    (r: TradeRow) => r.flowCode == f
  }

  function YearAtLeast(y: int): TradeRow -> bool {
    (r: TradeRow) => r.year >= y
  }

  /** `year.isin(range(lo, hi))` */
  function YearInRange(lo: int, hi: int): TradeRow -> bool {
    (r: TradeRow) => lo <= r.year < hi
  }

  function YearIs(y: int): TradeRow -> bool {
    (r: TradeRow) => r.year == y
  }

  /** Rows of group `k` that also satisfy `q`. */
  function HasKeyAnd<K(==)>(key: TradeRow -> Option<K>, k: K, q: TradeRow -> bool): TradeRow -> bool {
    r => key(r) == Some(k) && q(r)
  }

  /** Rows of any group that satisfy `q`. */
  function KnownAnd<K>(key: TradeRow -> Option<K>, q: TradeRow -> bool): TradeRow -> bool {
    r => key(r).Some? && q(r)
  }

  /** Rows of one of the groups `ks` that satisfy `q`. */
  function KeyInAnd<K(==)>(key: TradeRow -> Option<K>, ks: seq<K>, q: TradeRow -> bool): TradeRow -> bool {
    r => key(r).Some? && key(r).value in ks && q(r)
  }

  /** The total of `v` over the rows of group `k` that satisfy `q`. */
  function KeySum<K(==)>(rows: seq<TradeRow>, key: TradeRow -> Option<K>, q: TradeRow -> bool, v: TradeRow -> real): K -> real {
    k => Sum(rows, HasKeyAnd(key, k, q), v)
  }

  ghost predicate Occurs<K>(rows: seq<TradeRow>, key: TradeRow -> Option<K>, k: K) {
    exists i :: 0 <= i < |rows| && key(rows[i]) == Some(k)
  }

  /** Some row satisfying `q` has key `k`. */
  ghost predicate Selected<K>(rows: seq<TradeRow>, q: TradeRow -> bool, key: TradeRow -> Option<K>, k: K) {
    exists j :: 0 <= j < |rows| && q(rows[j]) && key(rows[j]) == Some(k)
  }

  /** The keys of the rows, missing ones skipped, with repetitions. */
  function Present<K(!new)>(rows: seq<TradeRow>, key: TradeRow -> Option<K>): (r: seq<K>)
    ensures forall k :: k in r <==> Occurs(rows, key, k)
    decreases |rows|
  {
    if |rows| == 0 then []
    else
      var init := Present(rows[..|rows| - 1], key);
      var last := rows[|rows| - 1];
      assert forall k :: Occurs(rows, key, k) <==> Occurs(rows[..|rows| - 1], key, k) || key(last) == Some(k) by {
        forall k | Occurs(rows, key, k) && key(last) != Some(k)
          ensures Occurs(rows[..|rows| - 1], key, k)
        {
          var i :| 0 <= i < |rows| && key(rows[i]) == Some(k);
          assert rows[..|rows| - 1][i] == rows[i];
        }
        forall k | Occurs(rows[..|rows| - 1], key, k)
          ensures Occurs(rows, key, k)
        {
          var i :| 0 <= i < |rows| - 1 && key(rows[..|rows| - 1][i]) == Some(k);
          assert rows[..|rows| - 1][i] == rows[i];
        }
      }
      if key(last).Some? then init + [key(last).value] else init
  }

  /** The group keys of a `groupby`: every key that occurs, once, in increasing order. */
  function GroupKeys<K(==,!new)>(rows: seq<TradeRow>, key: TradeRow -> Option<K>, lt: (K, K) -> bool): (r: seq<K>)
    requires StrictTotalOrder(lt)
    ensures StrictlyIncreasing(r, lt)
    ensures forall k :: k in r <==> Occurs(rows, key, k)
  {
    SortedUnique(Present(rows, key), lt)
  }

  ghost predicate Distinct<K>(ks: seq<K>) {
    forall i, j :: 0 <= i < j < |ks| ==> ks[i] != ks[j]
  }

  /** Summing group totals over distinct groups is summing over the rows of those groups. */
  lemma {:induction false} SumOverKeys<K>(rows: seq<TradeRow>, key: TradeRow -> Option<K>, q: TradeRow -> bool, v: TradeRow -> real, ks: seq<K>)
    requires Distinct(ks)
    ensures Sum(ks, All(), KeySum(rows, key, q, v)) == Sum(rows, KeyInAnd(key, ks, q), v)
    decreases |ks|
  {
    if |ks| == 0 {
      SumNone(rows, KeyInAnd(key, ks, q), v);
    } else {
      var n := |ks| - 1;
      var ks', k := ks[..n], ks[n];
      assert Distinct(ks');
      SumOverKeys(rows, key, q, v, ks');
      assert forall x :: x in ks <==> x in ks' || x == k by {
        assert ks == ks' + [k];
      }
      assert k !in ks';
      SumDisjoint(rows, KeyInAnd(key, ks', q), HasKeyAnd(key, k, q), KeyInAnd(key, ks, q), v);
    }
  }

  /** The group totals of a `groupby` add up to the total over the rows with a known key:
      grouping neither loses nor double-counts a row. */
  lemma GroupsPartition<K(!new)>(rows: seq<TradeRow>, key: TradeRow -> Option<K>, lt: (K, K) -> bool, q: TradeRow -> bool, v: TradeRow -> real)
    requires StrictTotalOrder(lt)
    ensures Sum(GroupKeys(rows, key, lt), All(), KeySum(rows, key, q, v)) == Sum(rows, KnownAnd(key, q), v)
  {
    var ks := GroupKeys(rows, key, lt);
    StrictlyIncreasingIsDistinct(ks, lt);
    SumOverKeys(rows, key, q, v, ks);
    forall x | x in rows
      ensures KeyInAnd(key, ks, q)(x) == KnownAnd(key, q)(x)
    {
      if key(x).Some? {
        var i :| 0 <= i < |rows| && rows[i] == x;
        assert Occurs(rows, key, key(x).value);
      }
    }
    SumExt(rows, KeyInAnd(key, ks, q), KnownAnd(key, q), v);
  }

  /** One row of `groupby([key, "flowCode"]).sum().unstack().fillna(0)`, restricted to the
      export and import columns. */
  datatype FlowTotals<K> = FlowTotals(key: K, x: real, m: real)

  function XOf<K>(p: FlowTotals<K>): real { p.x }
  function MOf<K>(p: FlowTotals<K>): real { p.m }

  /** The pivot of export and import totals per group, a missing combination counting 0. */
  function Pivot<K(==,!new)>(rows: seq<TradeRow>, key: TradeRow -> Option<K>, lt: (K, K) -> bool): (p: seq<FlowTotals<K>>)
    requires StrictTotalOrder(lt)
    ensures var ks := GroupKeys(rows, key, lt);
            && |p| == |ks|
            && forall i :: 0 <= i < |p| ==>
                 && p[i].key == ks[i]
                 && p[i].x == KeySum(rows, key, IsFlow(Export), PrimaryValue)(ks[i])
                 && p[i].m == KeySum(rows, key, IsFlow(Import), PrimaryValue)(ks[i])
  {
    var ks := GroupKeys(rows, key, lt);
    seq(|ks|, i requires 0 <= i < |ks| =>
      FlowTotals(ks[i], KeySum(rows, key, IsFlow(Export), PrimaryValue)(ks[i]),
                        KeySum(rows, key, IsFlow(Import), PrimaryValue)(ks[i])))
  }

  /** The export and import columns of a pivot total the exports and imports of the rows
      with a known key. */
  lemma PivotColumnTotals<K(!new)>(rows: seq<TradeRow>, key: TradeRow -> Option<K>, lt: (K, K) -> bool)
    requires StrictTotalOrder(lt)
    ensures Sum(Pivot(rows, key, lt), All(), XOf) == Sum(rows, KnownAnd(key, IsFlow(Export)), PrimaryValue)
    ensures Sum(Pivot(rows, key, lt), All(), MOf) == Sum(rows, KnownAnd(key, IsFlow(Import)), PrimaryValue)
  {
    var ks := GroupKeys(rows, key, lt);
    var p := Pivot(rows, key, lt);
    SumPointwise(p, XOf, ks, KeySum(rows, key, IsFlow(Export), PrimaryValue));
    SumPointwise(p, MOf, ks, KeySum(rows, key, IsFlow(Import), PrimaryValue));
    GroupsPartition(rows, key, lt, IsFlow(Export), PrimaryValue);
    GroupsPartition(rows, key, lt, IsFlow(Import), PrimaryValue);
  }

  /** One row of `groupby(key)[value].sum()`. */
  datatype KeyTotal<K> = KeyTotal(key: K, total: real)

  function TotalOf<K>(t: KeyTotal<K>): real { t.total }

  /** `groupby(key)[value].sum()`: the total of `v` per group. */
  function GroupTotals<K(==,!new)>(rows: seq<TradeRow>, key: TradeRow -> Option<K>, v: TradeRow -> real, lt: (K, K) -> bool): (g: seq<KeyTotal<K>>)
    requires StrictTotalOrder(lt)
    ensures var ks := GroupKeys(rows, key, lt);
            && |g| == |ks|
            && forall i :: 0 <= i < |g| ==> g[i].key == ks[i] && g[i].total == KeySum(rows, key, All(), v)(ks[i])
  {
    var ks := GroupKeys(rows, key, lt);
    seq(|ks|, i requires 0 <= i < |ks| => KeyTotal(ks[i], KeySum(rows, key, All(), v)(ks[i])))
  }

  /** `max()` of the year column. */
  function MaxYear(rows: seq<TradeRow>): (y: int)
    requires |rows| > 0
    ensures exists i :: 0 <= i < |rows| && rows[i].year == y
    ensures forall i :: 0 <= i < |rows| ==> rows[i].year <= y
    decreases |rows|
  {
    if |rows| == 1 then rows[0].year
    else
      var y := MaxYear(rows[..|rows| - 1]);
      if rows[|rows| - 1].year > y then rows[|rows| - 1].year else y
  }

  /** `min()` of the year column. */
  function MinYear(rows: seq<TradeRow>): (y: int)
    requires |rows| > 0
    ensures exists i :: 0 <= i < |rows| && rows[i].year == y
    ensures forall i :: 0 <= i < |rows| ==> rows[i].year >= y
    decreases |rows|
  {
    if |rows| == 1 then rows[0].year
    else
      var y := MinYear(rows[..|rows| - 1]);
      if rows[|rows| - 1].year < y then rows[|rows| - 1].year else y
  }
}
