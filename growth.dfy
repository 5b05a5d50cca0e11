/** The growth leaders: the commodities whose trade grew most between the year two years
    before the latest year and the latest year, in billions. */
module Growth {
  import opened Wrappers
  import opened Seqs
  import opened Order
  import opened Records
  import opened Grouping
  import opened Aggregates

  /** Entries kept by `head(5)`. */
  const GrowthN: nat := 5

  /** `df[df.year == y][df.flowCode == f]` */
  function YearFlow(y: int, f: string): TradeRow -> bool {
    (r: TradeRow) => r.year == y && r.flowCode == f
  }

  /** The rows of flow `f` in the latest year, and two years before it. */
  function Now(rows: seq<TradeRow>, f: string): TradeRow -> bool {
    YearFlow(LastYear(rows), f)
  }

  function Past(rows: seq<TradeRow>, f: string): TradeRow -> bool {
    YearFlow(LastYear(rows) - 2, f)
  }

  function KeyIn(ks: seq<string>): KeyTotal<string> -> bool {
    (t: KeyTotal<string>) => t.key in ks
  }

  /** `(now - old).dropna()`: the commodities with rows of flow `f` in both years, each with
      its latest total minus its earlier total, in billions. */
  function GrowthTable(rows: seq<TradeRow>, f: string): seq<KeyTotal<string>> {
    var now := Totals(rows, Now(rows, f), CommodityKey, ValueBln);
    var past := Totals(rows, Past(rows, f), CommodityKey, ValueBln);
    var both := Filter(now, KeyIn(TotalKeys(past)));
    seq(|both|, i requires 0 <= i < |both| =>
      KeyTotal(both[i].key, both[i].total - Sum(rows, HasKeyAnd(CommodityKey, both[i].key, Past(rows, f)), ValueBln)))
  }

  /** The growth entry of commodity `t.key`: it has rows of flow `f` in both years, and its
      delta is the change of its value in billions. */
  ghost predicate GrowthOf(rows: seq<TradeRow>, f: string, t: KeyTotal<string>) {
    && Selected(rows, Now(rows, f), CommodityKey, t.key)
    && Selected(rows, Past(rows, f), CommodityKey, t.key)
    && t.total == Sum(rows, HasKeyAnd(CommodityKey, t.key, Now(rows, f)), ValueBln)
                  - Sum(rows, HasKeyAnd(CommodityKey, t.key, Past(rows, f)), ValueBln)
  }

  /** Entry `i` of the growth table is the growth of its commodity. */
  lemma GrowthEntry(rows: seq<TradeRow>, f: string, i: nat)
    requires i < |GrowthTable(rows, f)|
    ensures GrowthOf(rows, f, GrowthTable(rows, f)[i])
  {
    var now := Totals(rows, Now(rows, f), CommodityKey, ValueBln);
    var past := Totals(rows, Past(rows, f), CommodityKey, ValueBln);
    var both := Filter(now, KeyIn(TotalKeys(past)));
    var e := both[i];
    assert GrowthTable(rows, f)[i] == KeyTotal(e.key, e.total - Sum(rows, HasKeyAnd(CommodityKey, e.key, Past(rows, f)), ValueBln));
    assert e in now && e.key in TotalKeys(past);
    var k :| 0 <= k < |now| && now[k] == e;
    assert Selected(rows, Now(rows, f), CommodityKey, e.key);
    assert e.total == Sum(rows, HasKeyAnd(CommodityKey, e.key, Now(rows, f)), ValueBln);
    var n :| 0 <= n < |past| && TotalKeys(past)[n] == e.key;
    assert past[n].key == e.key;
    assert Selected(rows, Past(rows, f), CommodityKey, e.key);
  }

  /** Every entry of the growth table is the growth of its commodity. */
  lemma GrowthTableEntries(rows: seq<TradeRow>, f: string)
    ensures forall t :: t in GrowthTable(rows, f) ==> GrowthOf(rows, f, t)
  {
    var g := GrowthTable(rows, f);
    forall t | t in g
      ensures GrowthOf(rows, f, t)
    {
      var i :| 0 <= i < |g| && g[i] == t;
      GrowthEntry(rows, f, i);
    }
  }

  /** Every commodity with rows of flow `f` in both years has an entry: `dropna()` drops
      exactly the commodities missing from one of the years. */
  lemma GrowthTableCovers(rows: seq<TradeRow>, f: string, k: string)
    requires Selected(rows, Now(rows, f), CommodityKey, k) && Selected(rows, Past(rows, f), CommodityKey, k)
    ensures exists i :: 0 <= i < |GrowthTable(rows, f)| && GrowthTable(rows, f)[i].key == k
  {
    var now := Totals(rows, Now(rows, f), CommodityKey, ValueBln);
    SelectedHasTotal(rows, Now(rows, f), CommodityKey, ValueBln, k);
    SelectedHasTotal(rows, Past(rows, f), CommodityKey, ValueBln, k);
    var n :| 0 <= n < |now| && TotalKeys(now)[n] == k;
    GrowthTableHas(rows, f, n);
  }

  /** A latest-year total whose commodity also has an earlier total has a growth entry. */
  lemma GrowthTableHas(rows: seq<TradeRow>, f: string, n: nat)
    requires n < |Totals(rows, Now(rows, f), CommodityKey, ValueBln)|
    requires Totals(rows, Now(rows, f), CommodityKey, ValueBln)[n].key in TotalKeys(Totals(rows, Past(rows, f), CommodityKey, ValueBln))
    ensures exists i :: 0 <= i < |GrowthTable(rows, f)|
                        && GrowthTable(rows, f)[i].key == Totals(rows, Now(rows, f), CommodityKey, ValueBln)[n].key
  {
    var now := Totals(rows, Now(rows, f), CommodityKey, ValueBln);
    var past := Totals(rows, Past(rows, f), CommodityKey, ValueBln);
    var both := Filter(now, KeyIn(TotalKeys(past)));
    assert KeyIn(TotalKeys(past))(now[n]);
    assert now[n] in both;
    var i :| 0 <= i < |both| && both[i] == now[n];
    assert GrowthTable(rows, f)[i].key == both[i].key;
  }

  /** The five largest growths of flow `f`, largest first; empty when the table is. */
  function GrowthTop(rows: seq<TradeRow>, f: string): (r: seq<KeyTotal<string>>)
    ensures |rows| == 0 ==> r == []
    ensures |r| == Min(GrowthN, |GrowthTable(rows, f)|)
    ensures NonIncreasing(r, TotalOf)
    ensures forall i :: 0 <= i < |r| ==> GrowthOf(rows, f, r[i])
    ensures multiset(r) <= multiset(GrowthTable(rows, f))
    ensures |r| > 0 ==> forall t :: t in multiset(GrowthTable(rows, f)) - multiset(r) ==> t.total <= r[|r| - 1].total
  {
    var r := Largest(GrowthTable(rows, f), GrowthN, TotalOf);
    LeadersAreGrowths(rows, f, r);
    r
  }

  /** Entries taken from the growth table are growths, and an empty table of rows has no
      growth entries. */
  lemma LeadersAreGrowths(rows: seq<TradeRow>, f: string, r: seq<KeyTotal<string>>)
    requires forall i :: 0 <= i < |r| ==> r[i] in GrowthTable(rows, f)
    ensures forall i :: 0 <= i < |r| ==> GrowthOf(rows, f, r[i])
    ensures |rows| == 0 ==> GrowthTable(rows, f) == []
  {
    GrowthTableEntries(rows, f);
    if |rows| == 0 && |GrowthTable(rows, f)| > 0 {
      assert false;
    }
  }

  /** The delta in billions is the change of the primary value divided by 10^9. */
  lemma GrowthInBillions(rows: seq<TradeRow>, f: string, t: KeyTotal<string>)
    requires GrowthOf(rows, f, t)
    ensures t.total == (Sum(rows, HasKeyAnd(CommodityKey, t.key, Now(rows, f)), PrimaryValue)
                        - Sum(rows, HasKeyAnd(CommodityKey, t.key, Past(rows, f)), PrimaryValue)) / Billion
  {
    SumScaled(rows, HasKeyAnd(CommodityKey, t.key, Now(rows, f)), PrimaryValue, ValueBln, Billion);
    SumScaled(rows, HasKeyAnd(CommodityKey, t.key, Past(rows, f)), PrimaryValue, ValueBln, Billion);
  }
}
