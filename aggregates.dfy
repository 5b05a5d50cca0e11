/** The dashboard sections computed from the reconciled trade table: yearly dynamics, top
    commodities, sector and regional shares, main partners, trade with Russia, declining
    commodities and partners, and the filter lists. */
module Aggregates {
  import opened Wrappers
  import opened Seqs
  import opened Order
  import opened Records
  import opened Grouping

  /** Entries kept by the `nlargest(10)` and `head(10)` rankings. */
  const TopN: nat := 10

  /** A `KeyError` raised by indexing a pivot with a flow column it does not have. */
  datatype KeyError = KeyError(column: string)

  /** Whether the `unstack()` of a `groupby([key, "flowCode"])` has a column for flow `f`:
      some row with a known key has that flow code. */
  predicate HasColumn<K>(rows: seq<TradeRow>, key: TradeRow -> Option<K>, f: string) {
    exists i :: 0 <= i < |rows| && key(rows[i]).Some? && rows[i].flowCode == f
  }

  /** The first flow column the scripts index (`"X"` before `"M"`) that the pivot lacks. */
  function MissingFlow<K>(rows: seq<TradeRow>, key: TradeRow -> Option<K>): (c: Option<string>)
    ensures c.None? <==> HasColumn(rows, key, Export) && HasColumn(rows, key, Import)
    ensures c.Some? ==> c.value == Export || c.value == Import
    ensures c == Some(Import) ==> HasColumn(rows, key, Export)
  {
    if !HasColumn(rows, key, Export) then Some(Export)
    else if !HasColumn(rows, key, Import) then Some(Import)
    else None
  }

  // ---------------------------------------------------------------------------------------
  // Trade dynamics: `groupby(["year", "flowCode"]).sum().unstack().fillna(0)` plus balance.

  datatype DynamicsRow = DynamicsRow(year: int, x: real, m: real, balance: real)

  function DynX(d: DynamicsRow): real { d.x }
  function DynM(d: DynamicsRow): real { d.m }
  function DynBalance(d: DynamicsRow): real { d.balance }

  function Years(d: seq<DynamicsRow>): seq<int> {
    seq(|d|, i requires 0 <= i < |d| => d[i].year)
  }

  /** The yearly export, import and balance table. Fails with the missing flow column when
      no row has that flow. */
  function TradeDynamics(rows: seq<TradeRow>): (r: Result<seq<DynamicsRow>, KeyError>)
    ensures r.Failure? <==> MissingFlow(rows, YearKey).Some?
    ensures r.Failure? ==> r.error == KeyError(MissingFlow(rows, YearKey).value)
    ensures r.Success? ==>
              && StrictlyIncreasing(Years(r.value), IntLess)
              && (forall y :: y in Years(r.value) <==> exists j :: 0 <= j < |rows| && rows[j].year == y)
              && forall i :: 0 <= i < |r.value| ==>
                   && r.value[i].x == Sum(rows, HasKeyAnd(YearKey, r.value[i].year, IsFlow(Export)), PrimaryValue)
                   && r.value[i].m == Sum(rows, HasKeyAnd(YearKey, r.value[i].year, IsFlow(Import)), PrimaryValue)
                   && r.value[i].balance == r.value[i].x - r.value[i].m
  {
    match MissingFlow(rows, YearKey)
    case Some(c) => Failure(KeyError(c))
    case None =>
      IntLessIsStrictTotal();
      var p := Pivot(rows, YearKey, IntLess);
      var d := seq(|p|, i requires 0 <= i < |p| => DynamicsRow(p[i].key, p[i].x, p[i].m, p[i].x - p[i].m));
      assert Years(d) == GroupKeys(rows, YearKey, IntLess);
      assert forall y :: Occurs(rows, YearKey, y) <==> exists j :: 0 <= j < |rows| && rows[j].year == y;
      Success(d)
  }

  /** The columns of the dynamics table add up to the export and import totals of the whole
      table, and the balances to their difference. */
  lemma DynamicsTotals(rows: seq<TradeRow>)
    requires TradeDynamics(rows).Success?
    ensures var d := TradeDynamics(rows).value;
            && Sum(d, All(), DynX) == Sum(rows, IsFlow(Export), PrimaryValue)
            && Sum(d, All(), DynM) == Sum(rows, IsFlow(Import), PrimaryValue)
            && Sum(d, All(), DynBalance) == Sum(rows, IsFlow(Export), PrimaryValue) - Sum(rows, IsFlow(Import), PrimaryValue)
  {
    IntLessIsStrictTotal();
    var d := TradeDynamics(rows).value;
    var p := Pivot(rows, YearKey, IntLess);
    SumPointwise(d, DynX, p, XOf);
    SumPointwise(d, DynM, p, MOf);
    PivotColumnTotals(rows, YearKey, IntLess);
    SumExt(rows, KnownAnd(YearKey, IsFlow(Export)), IsFlow(Export), PrimaryValue);
    SumExt(rows, KnownAnd(YearKey, IsFlow(Import)), IsFlow(Import), PrimaryValue);
    SumDifference(d, DynBalance, DynX, DynM);
  }
  // ---------------------------------------------------------------------------------------
  // Economic sectors and trade geography: a pivot by a string key, with column shares.

  function Names<K>(p: seq<FlowTotals<K>>): seq<K> {
    seq(|p|, i requires 0 <= i < |p| => p[i].key)
  }

  /** `groupby([key, "flowCode"]).sum().unstack().fillna(0)` over a string key: one row
      per known key value, in increasing order, with its export and import totals. */
  function FlowTable(rows: seq<TradeRow>, key: TradeRow -> Option<string>): (p: seq<FlowTotals<string>>)
    ensures StrictlyIncreasing(Names(p), StrLess)
    ensures forall k :: k in Names(p) <==> Occurs(rows, key, k)
    ensures forall i :: 0 <= i < |p| ==>
              && p[i].x == Sum(rows, HasKeyAnd(key, p[i].key, IsFlow(Export)), PrimaryValue)
              && p[i].m == Sum(rows, HasKeyAnd(key, p[i].key, IsFlow(Import)), PrimaryValue)
  {
    StrLessIsStrictTotal();
    var p := Pivot(rows, key, StrLess);
    assert Names(p) == GroupKeys(rows, key, StrLess);
    p
  }

  /** The export and import columns of a flow table total the exports and imports of the
      rows whose key is known: grouping loses and double-counts nothing. */
  lemma FlowTableTotals(rows: seq<TradeRow>, key: TradeRow -> Option<string>)
    ensures Sum(FlowTable(rows, key), All(), XOf) == Sum(rows, KnownAnd(key, IsFlow(Export)), PrimaryValue)
    ensures Sum(FlowTable(rows, key), All(), MOf) == Sum(rows, KnownAnd(key, IsFlow(Import)), PrimaryValue)
  {
    StrLessIsStrictTotal();
    PivotColumnTotals(rows, key, StrLess);
  }

  /** A row of the shares table; a share is missing when its column totals zero (the
      division gives NaN or infinity). */
  datatype ShareRow = ShareRow(name: string, x: real, m: real, exportShare: Option<real>, importShare: Option<real>)

  function ShareX(s: ShareRow): real { s.x }
  function ShareM(s: ShareRow): real { s.m }
  function ExportShareOf(s: ShareRow): real { s.exportShare.GetOr(0.0) }
  function ImportShareOf(s: ShareRow): real { s.importShare.GetOr(0.0) }

  /** `v / total`, missing when the total is zero. */
  function Share(v: real, total: real): (s: Option<real>)
    ensures s.None? <==> total == 0.0
    ensures s.Some? ==> s.value * total == v
  {
    if total == 0.0 then None else Some(v / total)
  }

  /** The flow table of `key` with each row's share of the export and of the import
      column. Fails with the missing flow column when no row of a known key has it. */
  function Shares(rows: seq<TradeRow>, key: TradeRow -> Option<string>): (r: Result<seq<ShareRow>, KeyError>)
    ensures r.Failure? <==> MissingFlow(rows, key).Some?
    ensures r.Failure? ==> r.error == KeyError(MissingFlow(rows, key).value)
    ensures r.Success? ==>
              var t := r.value;
              && |t| == |FlowTable(rows, key)|
              && forall i :: 0 <= i < |t| ==>
                   && t[i].name == FlowTable(rows, key)[i].key
                   && t[i].x == FlowTable(rows, key)[i].x
                   && t[i].m == FlowTable(rows, key)[i].m
                   && t[i].exportShare == Share(t[i].x, Sum(t, All(), ShareX))
                   && t[i].importShare == Share(t[i].m, Sum(t, All(), ShareM))
  {
    match MissingFlow(rows, key)
    case Some(c) => Failure(KeyError(c))
    case None =>
      var p := FlowTable(rows, key);
      var tx := Sum(p, All(), XOf);
      var tm := Sum(p, All(), MOf);
      var t := seq(|p|, i requires 0 <= i < |p| => ShareRow(p[i].key, p[i].x, p[i].m, Share(p[i].x, tx), Share(p[i].m, tm)));
      SumPointwise(t, ShareX, p, XOf);
      SumPointwise(t, ShareM, p, MOf);
      Success(t)
  }

  /** The shares of a column add up to one whenever the column total is nonzero, and that
      total is the trade of the rows with a known key. */
  lemma SharesSumToOne(rows: seq<TradeRow>, key: TradeRow -> Option<string>)
    requires Shares(rows, key).Success?
    ensures var t := Shares(rows, key).value;
            && Sum(t, All(), ShareX) == Sum(rows, KnownAnd(key, IsFlow(Export)), PrimaryValue)
            && Sum(t, All(), ShareM) == Sum(rows, KnownAnd(key, IsFlow(Import)), PrimaryValue)
            && (Sum(t, All(), ShareX) != 0.0 ==> Sum(t, All(), ExportShareOf) == 1.0)
            && (Sum(t, All(), ShareM) != 0.0 ==> Sum(t, All(), ImportShareOf) == 1.0)
  {
    var t := Shares(rows, key).value;
    var p := FlowTable(rows, key);
    SumPointwise(t, ShareX, p, XOf);
    SumPointwise(t, ShareM, p, MOf);
    FlowTableTotals(rows, key);
    var tx := Sum(t, All(), ShareX);
    var tm := Sum(t, All(), ShareM);
    if tx != 0.0 {
      forall i | 0 <= i < |t|
        ensures ExportShareOf(t[i]) == ShareX(t[i]) / tx
      {
        assert t[i].exportShare == Share(t[i].x, tx);
      }
      SumNormalized(t, ShareX, t, ExportShareOf);
    }
    if tm != 0.0 {
      forall i | 0 <= i < |t|
        ensures ImportShareOf(t[i]) == ShareM(t[i]) / tm
      {
        assert t[i].importShare == Share(t[i].m, tm);
      }
      SumNormalized(t, ShareM, t, ImportShareOf);
    }
  }

  // ---------------------------------------------------------------------------------------
  // Rankings: `df[q].groupby(key)[v].sum().nlargest(n)` over a string key.

  function TotalKeys(g: seq<KeyTotal<string>>): seq<string> {
    seq(|g|, i requires 0 <= i < |g| => g[i].key)
  }

  /** `df[q].groupby(key)[v].sum()`: one entry per key of a row satisfying `q`, in
      increasing key order, with the total of `v` over the rows of that key. */
  function Totals(rows: seq<TradeRow>, q: TradeRow -> bool, key: TradeRow -> Option<string>, v: TradeRow -> real): (g: seq<KeyTotal<string>>)
    ensures StrictlyIncreasing(TotalKeys(g), StrLess)
    ensures forall i :: 0 <= i < |g| ==>
              Selected(rows, q, key, g[i].key) && g[i].total == Sum(rows, HasKeyAnd(key, g[i].key, q), v)
    ensures forall j :: 0 <= j < |rows| && q(rows[j]) && key(rows[j]).Some? ==> key(rows[j]).value in TotalKeys(g)
  {
    StrLessIsStrictTotal();
    TotalsMeaning(rows, q, key, v);
    var g := GroupTotals(Filter(rows, q), key, v, StrLess);
    assert TotalKeys(g) == GroupKeys(Filter(rows, q), key, StrLess);
    g
  }

  lemma TotalsMeaning(rows: seq<TradeRow>, q: TradeRow -> bool, key: TradeRow -> Option<string>, v: TradeRow -> real)
    requires StrictTotalOrder(StrLess)
    ensures forall i :: 0 <= i < |GroupTotals(Filter(rows, q), key, v, StrLess)| ==>
              Selected(rows, q, key, GroupTotals(Filter(rows, q), key, v, StrLess)[i].key)
    ensures forall i :: 0 <= i < |GroupTotals(Filter(rows, q), key, v, StrLess)| ==>
              GroupTotals(Filter(rows, q), key, v, StrLess)[i].total ==
              Sum(rows, HasKeyAnd(key, GroupTotals(Filter(rows, q), key, v, StrLess)[i].key, q), v)
    ensures forall j :: 0 <= j < |rows| && q(rows[j]) && key(rows[j]).Some? ==>
              key(rows[j]).value in GroupKeys(Filter(rows, q), key, StrLess)
  {
    var sel := Filter(rows, q);
    var ks := GroupKeys(sel, key, StrLess);
    var g := GroupTotals(sel, key, v, StrLess);
    forall i | 0 <= i < |g|
      ensures Selected(rows, q, key, g[i].key)
      ensures g[i].total == Sum(rows, HasKeyAnd(key, g[i].key, q), v)
    {
      assert ks[i] in ks;
      var j :| 0 <= j < |sel| && key(sel[j]) == Some(ks[i]);
      assert sel[j] in rows;
      SumFilter(rows, q, HasKeyAnd(key, g[i].key, All()), HasKeyAnd(key, g[i].key, q), v);
    }
    forall j | 0 <= j < |rows| && q(rows[j]) && key(rows[j]).Some?
      ensures key(rows[j]).value in ks
    {
      assert rows[j] in sel;
      assert Occurs(sel, key, key(rows[j]).value);
    }
  }

  /** A key with a row satisfying `q` has a group. */
  lemma SelectedHasTotal(rows: seq<TradeRow>, q: TradeRow -> bool, key: TradeRow -> Option<string>, v: TradeRow -> real, k: string)
    requires Selected(rows, q, key, k)
    ensures k in TotalKeys(Totals(rows, q, key, v))
  {
    var j :| 0 <= j < |rows| && q(rows[j]) && key(rows[j]) == Some(k);
  }

  /** `df[q].groupby(key)[v].sum().nlargest(n)`: the `n` groups with the highest totals
      (all of them when there are fewer), highest first; no group left out has a higher
      total than the last one kept. */
  function TopTotals(rows: seq<TradeRow>, q: TradeRow -> bool, key: TradeRow -> Option<string>, v: TradeRow -> real, n: nat)
    : (r: seq<KeyTotal<string>>)
    ensures |r| == Min(n, |Totals(rows, q, key, v)|)
    ensures NonIncreasing(r, TotalOf)
    ensures forall i :: 0 <= i < |r| ==>
              Selected(rows, q, key, r[i].key) && r[i].total == Sum(rows, HasKeyAnd(key, r[i].key, q), v)
    ensures multiset(r) <= multiset(Totals(rows, q, key, v))
    ensures |r| > 0 ==> forall t :: t in multiset(Totals(rows, q, key, v)) - multiset(r) ==> t.total <= r[|r| - 1].total
  {
    Largest(Totals(rows, q, key, v), n, TotalOf)
  }

  // ---------------------------------------------------------------------------------------
  // Main partners over the last five years of data.

  /** `year.max()` and `year.min()`; an empty table has no window, and its year is never read. */
  function LastYear(rows: seq<TradeRow>): int {
    if |rows| == 0 then 0 else MaxYear(rows)
  }

  function FirstYear(rows: seq<TradeRow>): int {
    if |rows| == 0 then 0 else MinYear(rows)
  }

  /** The first year of the five-year window ending at the latest year. */
  function RecentFrom(rows: seq<TradeRow>): int {
    LastYear(rows) - 4
  }

  /** `df[df.year >= df.year.max() - 4]` */
  function Recent(rows: seq<TradeRow>): seq<TradeRow> {
    Filter(rows, YearAtLeast(RecentFrom(rows)))
  }

  /** The window holds the rows of the five latest years: from four years before the
      latest year up to the latest year. */
  lemma RecentWindow(rows: seq<TradeRow>)
    requires |rows| > 0
    ensures forall i :: 0 <= i < |Recent(rows)| ==>
              MaxYear(rows) - 4 <= Recent(rows)[i].year <= MaxYear(rows)
    ensures forall j :: 0 <= j < |rows| && rows[j].year > MaxYear(rows) - 5 ==> rows[j] in Recent(rows)
  {
    var r := Recent(rows);
    forall i | 0 <= i < |r|
      ensures MaxYear(rows) - 4 <= r[i].year <= MaxYear(rows)
    {
      var j :| 0 <= j < |rows| && rows[j] == r[i];
    }
  }

  /** A row of the partners table; the billions columns are the balance and turnover
      divided by 10^9. */
  datatype PartnerRow = PartnerRow(name: string, x: real, m: real, balance: real, turnover: real,
                                   balanceBln: real, turnoverBln: real)

  function TurnoverOf(p: PartnerRow): real { p.turnover }

  /** The partners pivot of the recent rows, with balance and turnover. */
  function PartnerTable(rows: seq<TradeRow>): seq<PartnerRow> {
    var p := FlowTable(Recent(rows), CountryKey);
    seq(|p|, i requires 0 <= i < |p| =>
      PartnerRow(p[i].key, p[i].x, p[i].m, p[i].x - p[i].m, p[i].x + p[i].m,
                 (p[i].x - p[i].m) / Billion, (p[i].x + p[i].m) / Billion))
  }

  /** The partner entry of country `c` as the recent rows define it. */
  ghost predicate PartnerOf(rows: seq<TradeRow>, c: PartnerRow) {
    && Occurs(Recent(rows), CountryKey, c.name)
    && c.x == Sum(Recent(rows), HasKeyAnd(CountryKey, c.name, IsFlow(Export)), PrimaryValue)
    && c.m == Sum(Recent(rows), HasKeyAnd(CountryKey, c.name, IsFlow(Import)), PrimaryValue)
    && c.balance == c.x - c.m
    && c.turnover == c.x + c.m
    && c.balanceBln == c.balance / Billion
    && c.turnoverBln == c.turnover / Billion
  }

  /** The ten partners with the highest turnover (exports plus imports) over the last five
      years, highest first. Fails with the missing flow column when no recent row of a
      known country has it. */
  function TopPartners(rows: seq<TradeRow>): (r: Result<seq<PartnerRow>, KeyError>)
    ensures r.Failure? <==> MissingFlow(Recent(rows), CountryKey).Some?
    ensures r.Failure? ==> r.error == KeyError(MissingFlow(Recent(rows), CountryKey).value)
    ensures r.Success? ==>
              && |r.value| == Min(TopN, |PartnerTable(rows)|)
              && NonIncreasing(r.value, TurnoverOf)
              && (forall i :: 0 <= i < |r.value| ==> PartnerOf(rows, r.value[i]))
              && multiset(r.value) <= multiset(PartnerTable(rows))
              && (|r.value| > 0 ==>
                    forall c :: c in multiset(PartnerTable(rows)) - multiset(r.value) ==>
                      c.turnover <= r.value[|r.value| - 1].turnover)
  {
    match MissingFlow(Recent(rows), CountryKey)
    case Some(c) => Failure(KeyError(c))
    case None =>
      var t := Largest(PartnerTable(rows), TopN, TurnoverOf);
      PartnerRanking(rows, t);
      Success(t)
  }

  lemma PartnerRanking(rows: seq<TradeRow>, t: seq<PartnerRow>)
    requires forall i :: 0 <= i < |t| ==> t[i] in PartnerTable(rows)
    ensures forall i :: 0 <= i < |t| ==> PartnerOf(rows, t[i])
  {
    var pt := PartnerTable(rows);
    var p := FlowTable(Recent(rows), CountryKey);
    forall i | 0 <= i < |t|
      ensures PartnerOf(rows, t[i])
    {
      var k :| 0 <= k < |pt| && pt[k] == t[i];
      assert p[k].key in Names(p);
    }
  }

  // ---------------------------------------------------------------------------------------
  // Trade with Russia over the last five years of data.

  const RussiaCode: int := 643

  /** `partnerCode == 643` or a country name that spells Russia. */
  function IsRussia(): TradeRow -> bool {
    (r: TradeRow) => r.partnerCode == RussiaCode || r.countryName == Some("Россия")
                     || r.countryName == Some("Российская Федерация") || r.countryName == Some("Russian Federation")
  }

  /** Rows of trade with Russia in flow `f`. */
  function RussiaFlow(f: string): TradeRow -> bool {
    (r: TradeRow) => IsRussia()(r) && r.flowCode == f
  }

  /** The Russia rows of the five-year window ending at the latest year of the whole table. */
  function RussiaRecent(rows: seq<TradeRow>): seq<TradeRow> {
    Filter(Filter(rows, IsRussia()), YearAtLeast(RecentFrom(rows)))
  }

  /** The yearly dynamics of trade with Russia over the last five years: one row per such
      year with Russia trade, holding the Russia exports and imports of that year and
      their difference. Fails with the missing flow column as the dynamics do. */
  function RussiaDynamics(rows: seq<TradeRow>): (r: Result<seq<DynamicsRow>, KeyError>)
    ensures r.Failure? <==> MissingFlow(RussiaRecent(rows), YearKey).Some?
    ensures r.Failure? ==> r.error == KeyError(MissingFlow(RussiaRecent(rows), YearKey).value)
    ensures r.Success? ==>
              && StrictlyIncreasing(Years(r.value), IntLess)
              && (forall y :: y in Years(r.value) <==> y >= RecentFrom(rows) && Selected(rows, IsRussia(), YearKey, y))
              && forall i :: 0 <= i < |r.value| ==>
                   && r.value[i].x == Sum(rows, HasKeyAnd(YearKey, r.value[i].year, RussiaFlow(Export)), PrimaryValue)
                   && r.value[i].m == Sum(rows, HasKeyAnd(YearKey, r.value[i].year, RussiaFlow(Import)), PrimaryValue)
                   && r.value[i].balance == r.value[i].x - r.value[i].m
  {
    var r := TradeDynamics(RussiaRecent(rows));
    if r.Success? then
      RussiaWindowYears(rows, r.value);
      RussiaWindowTotals(rows, r.value);
      r
    else r
  }

  /** The years of a dynamics table of the Russia window are the recent years with Russia
      rows. */
  lemma RussiaWindowYears(rows: seq<TradeRow>, d: seq<DynamicsRow>)
    requires forall y :: y in Years(d) <==> exists j :: 0 <= j < |RussiaRecent(rows)| && RussiaRecent(rows)[j].year == y
    ensures forall y :: y in Years(d) <==> y >= RecentFrom(rows) && Selected(rows, IsRussia(), YearKey, y)
  {
    RussiaYears(rows);
    assert forall y :: y in Years(d) <==> Occurs(RussiaRecent(rows), YearKey, y);
  }

  /** The totals of a dynamics table of the Russia window are the Russia totals of the whole
      table for those years. */
  lemma RussiaWindowTotals(rows: seq<TradeRow>, d: seq<DynamicsRow>)
    requires forall y :: y in Years(d) ==> y >= RecentFrom(rows)
    requires forall i :: 0 <= i < |d| ==>
               && d[i].x == Sum(RussiaRecent(rows), HasKeyAnd(YearKey, d[i].year, IsFlow(Export)), PrimaryValue)
               && d[i].m == Sum(RussiaRecent(rows), HasKeyAnd(YearKey, d[i].year, IsFlow(Import)), PrimaryValue)
    ensures forall i :: 0 <= i < |d| ==>
              && d[i].x == Sum(rows, HasKeyAnd(YearKey, d[i].year, RussiaFlow(Export)), PrimaryValue)
              && d[i].m == Sum(rows, HasKeyAnd(YearKey, d[i].year, RussiaFlow(Import)), PrimaryValue)
  {
    forall i | 0 <= i < |d|
      ensures d[i].x == Sum(rows, HasKeyAnd(YearKey, d[i].year, RussiaFlow(Export)), PrimaryValue)
      ensures d[i].m == Sum(rows, HasKeyAnd(YearKey, d[i].year, RussiaFlow(Import)), PrimaryValue)
    {
      assert Years(d)[i] == d[i].year;
      assert Years(d)[i] in Years(d);
      RussiaYearTotal(rows, d[i].year, Export);
      RussiaYearTotal(rows, d[i].year, Import);
    }
  }

  /** A year is in the Russia window exactly when it is recent and has Russia rows. */
  lemma RussiaYears(rows: seq<TradeRow>)
    ensures forall y :: Occurs(RussiaRecent(rows), YearKey, y) <==> y >= RecentFrom(rows) && Selected(rows, IsRussia(), YearKey, y)
  {
    forall y
      ensures Occurs(RussiaRecent(rows), YearKey, y) <==> y >= RecentFrom(rows) && Selected(rows, IsRussia(), YearKey, y)
    {
      if Occurs(RussiaRecent(rows), YearKey, y) {
        RussiaYearIsRecent(rows, y);
      }
      if y >= RecentFrom(rows) && Selected(rows, IsRussia(), YearKey, y) {
        RecentYearInWindow(rows, y);
      }
    }
  }

  lemma RussiaYearIsRecent(rows: seq<TradeRow>, y: int)
    requires Occurs(RussiaRecent(rows), YearKey, y)
    ensures y >= RecentFrom(rows) && Selected(rows, IsRussia(), YearKey, y)
  {
    var rr := RussiaRecent(rows);
    var ru := Filter(rows, IsRussia());
    var j :| 0 <= j < |rr| && rr[j].year == y;
    assert rr[j] in ru;
    var k :| 0 <= k < |ru| && ru[k] == rr[j];
    assert ru[k] in rows;
  }

  lemma RecentYearInWindow(rows: seq<TradeRow>, y: int)
    requires y >= RecentFrom(rows) && Selected(rows, IsRussia(), YearKey, y)
    ensures Occurs(RussiaRecent(rows), YearKey, y)
  {
    var rr := RussiaRecent(rows);
    var ru := Filter(rows, IsRussia());
    var j :| 0 <= j < |rows| && IsRussia()(rows[j]) && rows[j].year == y;
    var x := rows[j];
    assert x in ru;
    var k :| 0 <= k < |ru| && ru[k] == x;
    assert YearAtLeast(RecentFrom(rows))(ru[k]);
    assert x in rr;
    var n :| 0 <= n < |rr| && rr[n] == x;
    assert YearKey(rr[n]) == Some(y);
  }

  /** For a recent year, the window's flow total is the Russia flow total of the table. */
  lemma RussiaYearTotal(rows: seq<TradeRow>, y: int, f: string)
    requires y >= RecentFrom(rows)
    ensures Sum(RussiaRecent(rows), HasKeyAnd(YearKey, y, IsFlow(f)), PrimaryValue)
            == Sum(rows, HasKeyAnd(YearKey, y, RussiaFlow(f)), PrimaryValue)
  {
    var ru := Filter(rows, IsRussia());
    SumFilter(ru, YearAtLeast(RecentFrom(rows)), HasKeyAnd(YearKey, y, IsFlow(f)), HasKeyAnd(YearKey, y, RussiaFlow(f)), PrimaryValue);
    SumFilter(rows, IsRussia(), HasKeyAnd(YearKey, y, RussiaFlow(f)), HasKeyAnd(YearKey, y, RussiaFlow(f)), PrimaryValue);
  }

  // ---------------------------------------------------------------------------------------
  // Declining commodities and partners: the first five years against the last five.

  /** `year.isin(range(min, min + 5))` */
  function FirstHalf(rows: seq<TradeRow>): TradeRow -> bool {
    YearInRange(FirstYear(rows), FirstYear(rows) + 5)
  }

  /** `year.isin(range(max - 4, max + 1))` */
  function SecondHalf(rows: seq<TradeRow>): TradeRow -> bool {
    YearInRange(LastYear(rows) - 4, LastYear(rows) + 1)
  }

  function EitherHalf(rows: seq<TradeRow>): TradeRow -> bool {
    (r: TradeRow) => FirstHalf(rows)(r) || SecondHalf(rows)(r)
  }

  /** A row of the change table. */
  datatype ChangeRow = ChangeRow(name: string, firstHalf: real, secondHalf: real, change: real)

  /** The decline, so that the steepest decline scores highest. */
  function Decline(c: ChangeRow): real { -c.change }

  function IsDecline(c: ChangeRow): bool { c.change < 0.0 }

  /** The outer join of the two half totals by key, a key missing from one half counting 0,
      with the change from the first half to the second. */
  function ChangeTable(rows: seq<TradeRow>, key: TradeRow -> Option<string>): seq<ChangeRow> {
    var ks := TotalKeys(Totals(rows, EitherHalf(rows), key, PrimaryValue));
    seq(|ks|, i requires 0 <= i < |ks| =>
      var a := Sum(rows, HasKeyAnd(key, ks[i], FirstHalf(rows)), PrimaryValue);
      var b := Sum(rows, HasKeyAnd(key, ks[i], SecondHalf(rows)), PrimaryValue);
      ChangeRow(ks[i], a, b, b - a))
  }

  /** The change entry of key `c.name`, as the two halves of the table define it. */
  ghost predicate ChangeOf(rows: seq<TradeRow>, key: TradeRow -> Option<string>, c: ChangeRow) {
    && Selected(rows, EitherHalf(rows), key, c.name)
    && c.firstHalf == Sum(rows, HasKeyAnd(key, c.name, FirstHalf(rows)), PrimaryValue)
    && c.secondHalf == Sum(rows, HasKeyAnd(key, c.name, SecondHalf(rows)), PrimaryValue)
    && c.change == c.secondHalf - c.firstHalf
  }

  /** Entry `i` of the change table is the change of its key between the halves. */
  lemma ChangeEntry(rows: seq<TradeRow>, key: TradeRow -> Option<string>, i: nat)
    requires i < |ChangeTable(rows, key)|
    ensures ChangeOf(rows, key, ChangeTable(rows, key)[i])
  {
    var both := Totals(rows, EitherHalf(rows), key, PrimaryValue);
    assert ChangeTable(rows, key)[i].name == both[i].key;
  }

  /** Every entry of the change table is the change of its key between the halves. */
  lemma ChangeTableEntries(rows: seq<TradeRow>, key: TradeRow -> Option<string>)
    ensures forall c :: c in ChangeTable(rows, key) ==> ChangeOf(rows, key, c)
  {
    var t := ChangeTable(rows, key);
    forall c | c in t
      ensures ChangeOf(rows, key, c)
    {
      var i :| 0 <= i < |t| && t[i] == c;
      ChangeEntry(rows, key, i);
    }
  }

  /** Every key with rows in either half has an entry in the change table (the outer join
      loses no key). */
  lemma ChangeTableCovers(rows: seq<TradeRow>, key: TradeRow -> Option<string>, k: string)
    requires Selected(rows, FirstHalf(rows), key, k) || Selected(rows, SecondHalf(rows), key, k)
    ensures exists i :: 0 <= i < |ChangeTable(rows, key)| && ChangeTable(rows, key)[i].name == k
  {
    var both := Totals(rows, EitherHalf(rows), key, PrimaryValue);
    var j :| 0 <= j < |rows| && (FirstHalf(rows)(rows[j]) || SecondHalf(rows)(rows[j])) && key(rows[j]) == Some(k);
    assert EitherHalf(rows)(rows[j]);
    assert k in TotalKeys(both);
    var i :| 0 <= i < |both| && TotalKeys(both)[i] == k;
    ChangeTableName(rows, key, i);
  }

  /** Entry `i` of the change table is named by key `i` of the totals over both halves. */
  lemma ChangeTableName(rows: seq<TradeRow>, key: TradeRow -> Option<string>, i: nat)
    requires i < |Totals(rows, EitherHalf(rows), key, PrimaryValue)|
    ensures i < |ChangeTable(rows, key)|
    ensures ChangeTable(rows, key)[i].name == TotalKeys(Totals(rows, EitherHalf(rows), key, PrimaryValue))[i]
  {
  }

  /** A key's total over one half is its `groupby` total in that half, or 0 when it has no
      rows there: the `fillna(0)` of the outer join. */
  lemma HalfTotal(rows: seq<TradeRow>, key: TradeRow -> Option<string>, half: TradeRow -> bool, k: string)
    ensures forall j :: 0 <= j < |Totals(rows, half, key, PrimaryValue)| && Totals(rows, half, key, PrimaryValue)[j].key == k ==>
              Sum(rows, HasKeyAnd(key, k, half), PrimaryValue) == Totals(rows, half, key, PrimaryValue)[j].total
    ensures !Selected(rows, half, key, k) ==> Sum(rows, HasKeyAnd(key, k, half), PrimaryValue) == 0.0
  {
    if !Selected(rows, half, key, k) {
      SumNone(rows, HasKeyAnd(key, k, half), PrimaryValue);
    }
  }

  /** Whatever is drawn from the falling entries of the change table is a change entry
      with a negative change. */
  lemma FallingEntries(rows: seq<TradeRow>, key: TradeRow -> Option<string>, r: seq<ChangeRow>)
    requires forall i :: 0 <= i < |r| ==> r[i] in Filter(ChangeTable(rows, key), IsDecline)
    ensures forall i :: 0 <= i < |r| ==> ChangeOf(rows, key, r[i]) && r[i].change < 0.0
  {
    forall i | 0 <= i < |r|
      ensures ChangeOf(rows, key, r[i]) && r[i].change < 0.0
    {
      FallingEntry(rows, key, r[i]);
    }
  }

  lemma FallingEntry(rows: seq<TradeRow>, key: TradeRow -> Option<string>, c: ChangeRow)
    requires c in Filter(ChangeTable(rows, key), IsDecline)
    ensures ChangeOf(rows, key, c) && c.change < 0.0
  {
    var t := ChangeTable(rows, key);
    var fell := Filter(t, IsDecline);
    var k :| 0 <= k < |fell| && fell[k] == c;
    assert c in t && IsDecline(c);
    var m :| 0 <= m < |t| && t[m] == c;
    ChangeEntry(rows, key, m);
  }

  /** No change in `left` is lower than `bound`. */
  ghost predicate NoneLower(left: multiset<ChangeRow>, bound: real) {
    forall c :: c in left ==> c.change >= bound
  }

  /** `sort_values(by="change").head(n)`: the `n` entries with the lowest change (all of
      them when there are fewer), lowest first; no entry left out has a lower change than
      the last one kept. */
  function SmallestChanges(cs: seq<ChangeRow>, n: nat): (r: seq<ChangeRow>)
    ensures |r| == Min(n, |cs|)
    ensures forall i, j :: 0 <= i < j < |r| ==> r[i].change <= r[j].change
    ensures forall i :: 0 <= i < |r| ==> r[i] in cs
    ensures multiset(r) <= multiset(cs)
    ensures |r| > 0 ==> NoneLower(multiset(cs) - multiset(r), r[|r| - 1].change)
  {
    var r := Largest(cs, n, Decline);
    AscendingByChange(r);
    CompleteByChange(cs, r);
    r
  }

  /** Ranked by decline, highest first, is ranked by change, lowest first. */
  lemma AscendingByChange(r: seq<ChangeRow>)
    requires NonIncreasing(r, Decline)
    ensures forall i, j :: 0 <= i < j < |r| ==> r[i].change <= r[j].change
  {
    forall i, j | 0 <= i < j < |r|
      ensures r[i].change <= r[j].change
    {
      assert Decline(r[i]) >= Decline(r[j]);
    }
  }

  /** No entry left out declines more than the last one kept: none has a lower change. */
  lemma CompleteByChange(cs: seq<ChangeRow>, r: seq<ChangeRow>)
    requires |r| > 0 ==> forall c :: c in multiset(cs) - multiset(r) ==> Decline(c) <= Decline(r[|r| - 1])
    ensures |r| > 0 ==> NoneLower(multiset(cs) - multiset(r), r[|r| - 1].change)
  {
    if |r| > 0 {
      forall c | c in multiset(cs) - multiset(r)
        ensures c.change >= r[|r| - 1].change
      {
        assert Decline(c) <= Decline(r[|r| - 1]);
      }
    }
  }

  /** `change < 0`, sorted by change, first ten: the ten keys whose trade fell most from the
      first five years of data to the last five; empty unless the data spans ten years. */
  function Declining(rows: seq<TradeRow>, key: TradeRow -> Option<string>): (r: seq<ChangeRow>)
    ensures LastYear(rows) - FirstYear(rows) < 9 ==> r == []
    ensures forall i, j :: 0 <= i < j < |r| ==> r[i].change <= r[j].change
    ensures forall i :: 0 <= i < |r| ==> ChangeOf(rows, key, r[i]) && r[i].change < 0.0
    ensures LastYear(rows) - FirstYear(rows) >= 9 ==>
              var fell := Filter(ChangeTable(rows, key), IsDecline);
              && |r| == Min(TopN, |fell|)
              && multiset(r) <= multiset(fell)
              && (|r| > 0 ==> NoneLower(multiset(fell) - multiset(r), r[|r| - 1].change))
  {
    if LastYear(rows) - FirstYear(rows) < 9 then []
    else
      var r := SmallestChanges(Filter(ChangeTable(rows, key), IsDecline), TopN);
      FallingEntries(rows, key, r);
      r
  }

  // ---------------------------------------------------------------------------------------
  // Filter lists of the dashboard.

  /** `sorted(df.year.unique())` */
  function DistinctYears(rows: seq<TradeRow>): (r: seq<int>)
    ensures StrictlyIncreasing(r, IntLess)
    ensures forall y :: y in r <==> exists j :: 0 <= j < |rows| && rows[j].year == y
  {
    IntLessIsStrictTotal();
    var r := GroupKeys(rows, YearKey, IntLess);
    assert forall y :: Occurs(rows, YearKey, y) <==> exists j :: 0 <= j < |rows| && rows[j].year == y;
    r
  }

  /** `sorted(df[column].dropna().unique())` */
  function DistinctNames(rows: seq<TradeRow>, key: TradeRow -> Option<string>): (r: seq<string>)
    ensures StrictlyIncreasing(r, StrLess)
    ensures forall k :: k in r <==> Occurs(rows, key, k)
  {
    StrLessIsStrictTotal();
    GroupKeys(rows, key, StrLess)
  }
}
