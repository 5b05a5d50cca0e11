/** The three scripts, each run from already loaded tables to the dashboard mapping it
    writes: data_preparation.py, prepare_dashboard_data.py and prepare_growth_data.py. */
module Pipelines {
  import opened Wrappers
  import opened Seqs
  import opened Records
  import opened HeaderRepair
  import opened Reconcile
  import Dedup
  import opened Grouping
  import opened Aggregates
  import opened Growth

  /** One value of the dashboard mapping. */
  datatype Section =
    | DynamicsSection(dynamics: seq<DynamicsRow>)
    | RankingSection(ranking: seq<KeyTotal<string>>)
    | SharesSection(shares: seq<ShareRow>)
    | FlowsSection(flows: seq<FlowTotals<string>>)
    | PartnersSection(partners: seq<PartnerRow>)
    | ChangesSection(changes: seq<ChangeRow>)
    | YearsSection(years: seq<int>)
    | NamesSection(names: seq<string>)

  /** The keys of the dashboard mapping: one per section some script writes, and `Other`
      for any further key an existing dashboard file holds. */
  datatype Key =
    | TradeDynamicsKey | TopExportCommodities | TopImportCommodities | EconomicSectors
    | TradeGeography | TopPartnerCountries | RussiaTradeDynamics
    | DecliningCommodities | DecliningPartners
    | YearList | RegionList | CountryList | CommodityList
    | ExportGrowth | ImportGrowth
    | Other(name: string)

  /** The key as it is spelled in the dashboard file. */
  function Name(k: Key): string {
    match k
    case TradeDynamicsKey => "trade_dynamics"
    case TopExportCommodities => "top_export_commodities"
    case TopImportCommodities => "top_import_commodities"
    case EconomicSectors => "economic_sectors"
    case TradeGeography => "trade_geography"
    case TopPartnerCountries => "top_partner_countries"
    case RussiaTradeDynamics => "russia_trade_dynamics"
    case DecliningCommodities => "declining_commodities"
    case DecliningPartners => "declining_partners"
    case YearList => "years"
    case RegionList => "regions"
    case CountryList => "countries"
    case CommodityList => "commodities"
    case ExportGrowth => "export_growth"
    case ImportGrowth => "import_growth"
    case Other(name) => name
  }

  type Dashboard = map<Key, Section>

  /** The first missing flow column among the sections a script computes, in the order it
      computes them: the script stops at that section. */
  function FirstMissing(checks: seq<Option<string>>): (r: Option<string>)
    ensures r.None? <==> forall i :: 0 <= i < |checks| ==> checks[i].None?
    ensures r.Some? ==> exists i :: 0 <= i < |checks| && checks[i] == r && forall j :: 0 <= j < i ==> checks[j].None?
    decreases |checks|
  {
    if |checks| == 0 then None
    else if checks[0].Some? then checks[0]
    else
      var r := FirstMissing(checks[1..]);
      assert forall i :: 0 <= i < |checks| - 1 ==> checks[1..][i] == checks[i + 1];
      r
  }

  /** Scanning the checks from position `k`: a missing column there is the answer,
      otherwise the scan goes on with the next check. */
  lemma FirstMissingFrom(checks: seq<Option<string>>, k: nat)
    requires k < |checks|
    ensures FirstMissing(checks[k..]) == if checks[k].Some? then checks[k] else FirstMissing(checks[k + 1..])
  {
    assert checks[k..][0] == checks[k];
    assert checks[k..][1..] == checks[k + 1..];
  }

  /** Scanning two lists of checks one after the other is scanning the first, then the
      second. */
  lemma {:induction false} FirstMissingAppend(first: seq<Option<string>>, second: seq<Option<string>>)
    ensures FirstMissing(first + second) == if FirstMissing(first).Some? then FirstMissing(first) else FirstMissing(second)
    decreases |first|
  {
    if |first| == 0 {
      assert first + second == second;
    } else {
      FirstMissingAppend(first[1..], second);
      assert (first + second)[1..] == first[1..] + second;
      assert (first + second)[0] == first[0];
    }
  }

  // ---------------------------------------------------------------------------------------
  // data_preparation.py

  /** The table the sections of data_preparation.py are computed from: joined, filled,
      restricted to exports and imports, and deduplicated. */
  function PreparedRows(trade: seq<RawTrade>, commodities: seq<CommodityRef>, countries: seq<CountryRef>): seq<TradeRow> {
    Dedup.KeepFirst(Dedup.FilterFlows(Reconciled(trade, commodities, countries)))
  }

  /** The prepared table is clean: every row is a reconciled row with all names known, an
      export or import, and the only one with its key. */
  lemma PreparedRowsClean(trade: seq<RawTrade>, commodities: seq<CommodityRef>, countries: seq<CountryRef>)
    ensures var rows := PreparedRows(trade, commodities, countries);
            && AllNamed(rows)
            && (forall i :: 0 <= i < |rows| ==> rows[i].flowCode == Export || rows[i].flowCode == Import)
            && UniqueKeys(rows, KeyOf)
            && IsSubseq(rows, Dedup.FilterFlows(Reconciled(trade, commodities, countries)))
            && (forall i :: 0 <= i < |rows| ==> rows[i] in Reconciled(trade, commodities, countries))
  {
    var all := Reconciled(trade, commodities, countries);
    var flows := Dedup.FilterFlows(all);
    var rows := Dedup.KeepFirst(flows);
    SubseqMembers(rows, flows);
    SubseqMembers(flows, all);
    forall i | 0 <= i < |rows|
      ensures rows[i] in all
      ensures rows[i].flowCode == Export || rows[i].flowCode == Import
    {
      var j :| 0 <= j < |flows| && flows[j] == rows[i];
    }
  }

  /** Once every name is filled in, the sector and region pivots have the flow columns of
      the yearly pivot, so those sections fail exactly when the dynamics do. */
  lemma NamedColumnsFollowYears(rows: seq<TradeRow>)
    requires AllNamed(rows)
    ensures MissingFlow(rows, SectorKey) == MissingFlow(rows, YearKey)
    ensures MissingFlow(rows, WorldPartKey) == MissingFlow(rows, YearKey)
  {
    forall f | f == Export || f == Import
      ensures HasColumn(rows, SectorKey, f) == HasColumn(rows, YearKey, f)
      ensures HasColumn(rows, WorldPartKey, f) == HasColumn(rows, YearKey, f)
    {
      if HasColumn(rows, YearKey, f) {
        var i :| 0 <= i < |rows| && rows[i].flowCode == f;
        assert SectorKey(rows[i]).Some? && WorldPartKey(rows[i]).Some?;
      }
    }
  }

  /** The flow-column checks of the three pivots of data_preparation.py over the whole
      table, in the order of its sections. */
  function PivotChecks(rows: seq<TradeRow>): seq<Option<string>> {
    [MissingFlow(rows, YearKey), MissingFlow(rows, SectorKey), MissingFlow(rows, WorldPartKey)]
  }

  /** The flow-column checks of the two pivots of data_preparation.py over its recent
      window. */
  function RecentChecks(rows: seq<TradeRow>): seq<Option<string>> {
    [MissingFlow(Recent(rows), CountryKey), MissingFlow(RussiaRecent(rows), YearKey)]
  }

  /** The flow-column checks of data_preparation.py, in the order of its sections. */
  function PreparationChecks(rows: seq<TradeRow>): seq<Option<string>> {
    PivotChecks(rows) + RecentChecks(rows)
  }

  /** Since data_preparation.py fills every name before pivoting, its sector and region
      pivots never stop it: only a missing yearly column or a gap in the recent window can. */
  lemma PreparationFailureCauses(trade: seq<RawTrade>, commodities: seq<CommodityRef>, countries: seq<CountryRef>)
    ensures var rows := PreparedRows(trade, commodities, countries);
            FirstMissing(PreparationChecks(rows)) == FirstMissing([MissingFlow(rows, YearKey)] + RecentChecks(rows))
  {
    var rows := PreparedRows(trade, commodities, countries);
    PreparedRowsClean(trade, commodities, countries);
    NamedColumnsFollowYears(rows);
    FirstMissingAppend(PivotChecks(rows), RecentChecks(rows));
    FirstMissingAppend([MissingFlow(rows, YearKey)], RecentChecks(rows));
    var pivots := PivotChecks(rows);
    assert pivots[1..][1..] == [MissingFlow(rows, WorldPartKey)];
    assert [MissingFlow(rows, YearKey)][1..] == [];
  }

  /** The table data_preparation.py computes its sections from, built step by step. */
  method PrepareRows(trade: seq<RawTrade>, commodities: seq<CommodityRef>, countries: seq<CountryRef>)
    returns (rows: seq<TradeRow>)
    ensures rows == PreparedRows(trade, commodities, countries)
  {
    rows := Reconciled(trade, commodities, countries);
    rows := Dedup.FilterFlows(rows);
    rows := Dedup.DropDuplicates(rows);
  }

  /** The sections of data_preparation.py over the prepared table, written into the
      mapping one by one in the script's order. A section whose pivot lacks a flow column
      stops the script with that column's `KeyError`; otherwise every section holds its
      aggregate. */
  method DataSections(rows: seq<TradeRow>) returns (result: Result<Dashboard, KeyError>)
    ensures var missing := FirstMissing(PreparationChecks(rows));
            && (result.Failure? <==> missing.Some?)
            && (result.Failure? ==> result.error == KeyError(missing.value))
    ensures result.Success? ==>
              var d := result.value;
              && d.Keys == {TradeDynamicsKey, TopExportCommodities, TopImportCommodities, EconomicSectors,
                            TradeGeography, TopPartnerCountries, RussiaTradeDynamics,
                            DecliningCommodities, DecliningPartners}
              && TradeDynamics(rows).Success? && d[TradeDynamicsKey] == DynamicsSection(TradeDynamics(rows).value)
              && d[TopExportCommodities] == RankingSection(TopTotals(rows, IsFlow(Export), CommodityKey, PrimaryValue, TopN))
              && d[TopImportCommodities] == RankingSection(TopTotals(rows, IsFlow(Import), CommodityKey, PrimaryValue, TopN))
              && Shares(rows, SectorKey).Success? && d[EconomicSectors] == SharesSection(Shares(rows, SectorKey).value)
              && Shares(rows, WorldPartKey).Success? && d[TradeGeography] == SharesSection(Shares(rows, WorldPartKey).value)
              && TopPartners(rows).Success? && d[TopPartnerCountries] == PartnersSection(TopPartners(rows).value)
              && RussiaDynamics(rows).Success? && d[RussiaTradeDynamics] == DynamicsSection(RussiaDynamics(rows).value)
              && d[DecliningCommodities] == ChangesSection(Declining(rows, CommodityKey))
              && d[DecliningPartners] == ChangesSection(Declining(rows, CountryKey))
  {
    FirstMissingAppend(PivotChecks(rows), RecentChecks(rows));
    var pivots := PivotSections(rows);
    if pivots.Failure? {
      return Failure(pivots.error);
    }
    var recent := RecentSections(rows);
    if recent.Failure? {
      return Failure(recent.error);
    }
    var (dynamics, sectors, regions) := pivots.value;
    var (partners, russia) := recent.value;
    result := Success(PreparationMap(DynamicsSection(dynamics),
                                     RankingSection(TopTotals(rows, IsFlow(Export), CommodityKey, PrimaryValue, TopN)),
                                     RankingSection(TopTotals(rows, IsFlow(Import), CommodityKey, PrimaryValue, TopN)),
                                     SharesSection(sectors), SharesSection(regions),
                                     PartnersSection(partners), DynamicsSection(russia),
                                     ChangesSection(Declining(rows, CommodityKey)), ChangesSection(Declining(rows, CountryKey))));
  }

  /** The three pivots of data_preparation.py over the whole table, in the script's order:
      the yearly dynamics, the sector shares and the regional shares. */
  method PivotSections(rows: seq<TradeRow>)
    returns (result: Result<(seq<DynamicsRow>, seq<ShareRow>, seq<ShareRow>), KeyError>)
    ensures var missing := FirstMissing(PivotChecks(rows));
            && (result.Failure? <==> missing.Some?)
            && (result.Failure? ==> result.error == KeyError(missing.value))
    ensures result.Success? ==>
              && TradeDynamics(rows) == Success(result.value.0)
              && Shares(rows, SectorKey) == Success(result.value.1)
              && Shares(rows, WorldPartKey) == Success(result.value.2)
  {
    ghost var checks := PivotChecks(rows);
    assert checks[0..] == checks;
    FirstMissingFrom(checks, 0);
    var dynamics := TradeDynamics(rows);
    if dynamics.Failure? {
      return Failure(dynamics.error);
    }
    FirstMissingFrom(checks, 1);
    var sectors := Shares(rows, SectorKey);
    if sectors.Failure? {
      return Failure(sectors.error);
    }
    FirstMissingFrom(checks, 2);
    var regions := Shares(rows, WorldPartKey);
    if regions.Failure? {
      return Failure(regions.error);
    }
    assert checks[3..] == [];
    result := Success((dynamics.value, sectors.value, regions.value));
  }

  /** The two sections of data_preparation.py over its recent window, in the script's
      order: the partner ranking and the Russia dynamics. */
  method RecentSections(rows: seq<TradeRow>) returns (result: Result<(seq<PartnerRow>, seq<DynamicsRow>), KeyError>)
    ensures var missing := FirstMissing(RecentChecks(rows));
            && (result.Failure? <==> missing.Some?)
            && (result.Failure? ==> result.error == KeyError(missing.value))
    ensures result.Success? ==>
              TopPartners(rows) == Success(result.value.0) && RussiaDynamics(rows) == Success(result.value.1)
  {
    ghost var checks := RecentChecks(rows);
    assert checks[0..] == checks;
    FirstMissingFrom(checks, 0);
    var partners := TopPartners(rows);
    if partners.Failure? {
      return Failure(partners.error);
    }
    FirstMissingFrom(checks, 1);
    var russia := RussiaDynamics(rows);
    if russia.Failure? {
      return Failure(russia.error);
    }
    assert checks[2..] == [];
    result := Success((partners.value, russia.value));
  }

  /** The mapping data_preparation.py writes, one key per section. */
  function PreparationMap(dynamics: Section, exportTop: Section, importTop: Section, sectors: Section, geography: Section,
                          partners: Section, russia: Section, decliningCommodities: Section, decliningPartners: Section)
    : (d: Dashboard)
    ensures d.Keys == {TradeDynamicsKey, TopExportCommodities, TopImportCommodities, EconomicSectors,
                       TradeGeography, TopPartnerCountries, RussiaTradeDynamics,
                       DecliningCommodities, DecliningPartners}
    ensures d[TradeDynamicsKey] == dynamics && d[TopExportCommodities] == exportTop
    ensures d[TopImportCommodities] == importTop && d[EconomicSectors] == sectors
    ensures d[TradeGeography] == geography && d[TopPartnerCountries] == partners
    ensures d[RussiaTradeDynamics] == russia && d[DecliningCommodities] == decliningCommodities
    ensures d[DecliningPartners] == decliningPartners
  {
    map[TradeDynamicsKey := dynamics, TopExportCommodities := exportTop, TopImportCommodities := importTop,
        EconomicSectors := sectors, TradeGeography := geography, TopPartnerCountries := partners,
        RussiaTradeDynamics := russia, DecliningCommodities := decliningCommodities,
        DecliningPartners := decliningPartners]
  }

  /** data_preparation.py: repairs the country file, parses it, prepares the trade table and
      computes its sections. */
  method PrepareData(trade: seq<RawTrade>, commodities: seq<CommodityRef>, countryLines: seq<string>,
                     parseCountries: seq<string> -> seq<CountryRef>)
    returns (result: Result<Dashboard, KeyError>)
    ensures var rows := PreparedRows(trade, commodities, parseCountries(RepairHeader(countryLines)));
            var missing := FirstMissing(PreparationChecks(rows));
            && (result.Failure? <==> missing.Some?)
            && (result.Failure? ==> result.error == KeyError(missing.value))
            && (result.Success? ==>
                  var d := result.value;
                  && d.Keys == {TradeDynamicsKey, TopExportCommodities, TopImportCommodities, EconomicSectors,
                                TradeGeography, TopPartnerCountries, RussiaTradeDynamics,
                                DecliningCommodities, DecliningPartners}
                  && TradeDynamics(rows).Success? && d[TradeDynamicsKey] == DynamicsSection(TradeDynamics(rows).value)
                  && d[TopExportCommodities] == RankingSection(TopTotals(rows, IsFlow(Export), CommodityKey, PrimaryValue, TopN))
                  && d[TopImportCommodities] == RankingSection(TopTotals(rows, IsFlow(Import), CommodityKey, PrimaryValue, TopN))
                  && Shares(rows, SectorKey).Success? && d[EconomicSectors] == SharesSection(Shares(rows, SectorKey).value)
                  && Shares(rows, WorldPartKey).Success? && d[TradeGeography] == SharesSection(Shares(rows, WorldPartKey).value)
                  && TopPartners(rows).Success? && d[TopPartnerCountries] == PartnersSection(TopPartners(rows).value)
                  && RussiaDynamics(rows).Success? && d[RussiaTradeDynamics] == DynamicsSection(RussiaDynamics(rows).value)
                  && d[DecliningCommodities] == ChangesSection(Declining(rows, CommodityKey))
                  && d[DecliningPartners] == ChangesSection(Declining(rows, CountryKey)))
  {
    var countries := parseCountries(RepairHeader(countryLines));
    var rows := PrepareRows(trade, commodities, countries);
    result := DataSections(rows);
  }

  // ---------------------------------------------------------------------------------------
  // prepare_dashboard_data.py

  /** The table of prepare_dashboard_data.py: both joins, with no fill, filter or dedup. */
  function JoinedRows(trade: seq<RawTrade>, commodities: seq<CommodityRef>, countries: seq<CountryRef>): seq<TradeRow> {
    JoinCountries(JoinCommodities(trade, commodities), countries)
  }

  /** The flow-column checks of prepare_dashboard_data.py, in the order of its sections. */
  function DashboardChecks(rows: seq<TradeRow>): seq<Option<string>> {
    [MissingFlow(rows, YearKey), MissingFlow(rows, SectorKey)]
  }

  /** The sections of prepare_dashboard_data.py over the joined table: the dynamics, the
      commodity rankings, the sector shares, the regional pivot, the partner totals and the
      four filter lists. */
  method DashboardSections(rows: seq<TradeRow>) returns (result: Result<Dashboard, KeyError>)
    ensures var missing := FirstMissing(DashboardChecks(rows));
            && (result.Failure? <==> missing.Some?)
            && (result.Failure? ==> result.error == KeyError(missing.value))
    ensures result.Success? ==>
              var d := result.value;
              && d.Keys == {TradeDynamicsKey, TopExportCommodities, TopImportCommodities, EconomicSectors,
                            TradeGeography, TopPartnerCountries, YearList, RegionList, CountryList, CommodityList}
              && TradeDynamics(rows).Success? && d[TradeDynamicsKey] == DynamicsSection(TradeDynamics(rows).value)
              && d[TopExportCommodities] == RankingSection(TopTotals(rows, IsFlow(Export), CommodityKey, PrimaryValue, TopN))
              && d[TopImportCommodities] == RankingSection(TopTotals(rows, IsFlow(Import), CommodityKey, PrimaryValue, TopN))
              && Shares(rows, SectorKey).Success? && d[EconomicSectors] == SharesSection(Shares(rows, SectorKey).value)
              && d[TradeGeography] == FlowsSection(FlowTable(rows, WorldPartKey))
              && d[TopPartnerCountries] == RankingSection(TopTotals(rows, YearAtLeast(RecentFrom(rows)), CountryKey, PrimaryValue, TopN))
              && d[YearList] == YearsSection(DistinctYears(rows))
              && d[RegionList] == NamesSection(DistinctNames(rows, WorldPartKey))
              && d[CountryList] == NamesSection(DistinctNames(rows, CountryKey))
              && d[CommodityList] == NamesSection(DistinctNames(rows, CommodityKey))
  {
    ghost var checks := DashboardChecks(rows);
    assert checks[0..] == checks;
    FirstMissingFrom(checks, 0);
    var dynamics := TradeDynamics(rows);
    if dynamics.Failure? {
      return Failure(dynamics.error);
    }
    var exportTop := TopTotals(rows, IsFlow(Export), CommodityKey, PrimaryValue, TopN);
    var importTop := TopTotals(rows, IsFlow(Import), CommodityKey, PrimaryValue, TopN);
    FirstMissingFrom(checks, 1);
    var sectors := Shares(rows, SectorKey);
    if sectors.Failure? {
      return Failure(sectors.error);
    }
    assert checks[2..] == [];
    result := Success(DashboardMap(DynamicsSection(dynamics.value), RankingSection(exportTop), RankingSection(importTop),
                                   SharesSection(sectors.value), FlowsSection(FlowTable(rows, WorldPartKey)),
                                   RankingSection(TopTotals(rows, YearAtLeast(RecentFrom(rows)), CountryKey, PrimaryValue, TopN)),
                                   YearsSection(DistinctYears(rows)), NamesSection(DistinctNames(rows, WorldPartKey)),
                                   NamesSection(DistinctNames(rows, CountryKey)), NamesSection(DistinctNames(rows, CommodityKey))));
  }

  /** The mapping prepare_dashboard_data.py writes, one key per section. */
  function DashboardMap(dynamics: Section, exportTop: Section, importTop: Section, sectors: Section, geography: Section,
                        partners: Section, years: Section, regions: Section, countries: Section, commodities: Section)
    : (d: Dashboard)
    ensures d.Keys == {TradeDynamicsKey, TopExportCommodities, TopImportCommodities, EconomicSectors,
                       TradeGeography, TopPartnerCountries, YearList, RegionList, CountryList, CommodityList}
    ensures d[TradeDynamicsKey] == dynamics && d[TopExportCommodities] == exportTop
    ensures d[TopImportCommodities] == importTop && d[EconomicSectors] == sectors
    ensures d[TradeGeography] == geography && d[TopPartnerCountries] == partners
    ensures d[YearList] == years && d[RegionList] == regions
    ensures d[CountryList] == countries && d[CommodityList] == commodities
  {
    map[TradeDynamicsKey := dynamics, TopExportCommodities := exportTop, TopImportCommodities := importTop,
        EconomicSectors := sectors, TradeGeography := geography, TopPartnerCountries := partners,
        YearList := years, RegionList := regions, CountryList := countries, CommodityList := commodities]
  }

  /** prepare_dashboard_data.py: repairs and parses the country file, joins both reference
      tables onto the trade table and computes its sections. */
  method PrepareDashboard(trade: seq<RawTrade>, commodities: seq<CommodityRef>, countryLines: seq<string>,
                          parseCountries: seq<string> -> seq<CountryRef>)
    returns (result: Result<Dashboard, KeyError>)
    ensures var rows := JoinedRows(trade, commodities, parseCountries(RepairHeader(countryLines)));
            var missing := FirstMissing(DashboardChecks(rows));
            && (result.Failure? <==> missing.Some?)
            && (result.Failure? ==> result.error == KeyError(missing.value))
            && (result.Success? ==>
                  var d := result.value;
                  && d.Keys == {TradeDynamicsKey, TopExportCommodities, TopImportCommodities, EconomicSectors,
                                TradeGeography, TopPartnerCountries, YearList, RegionList, CountryList, CommodityList}
                  && TradeDynamics(rows).Success? && d[TradeDynamicsKey] == DynamicsSection(TradeDynamics(rows).value)
                  && d[TopExportCommodities] == RankingSection(TopTotals(rows, IsFlow(Export), CommodityKey, PrimaryValue, TopN))
                  && d[TopImportCommodities] == RankingSection(TopTotals(rows, IsFlow(Import), CommodityKey, PrimaryValue, TopN))
                  && Shares(rows, SectorKey).Success? && d[EconomicSectors] == SharesSection(Shares(rows, SectorKey).value)
                  && d[TradeGeography] == FlowsSection(FlowTable(rows, WorldPartKey))
                  && d[TopPartnerCountries] == RankingSection(TopTotals(rows, YearAtLeast(RecentFrom(rows)), CountryKey, PrimaryValue, TopN))
                  && d[YearList] == YearsSection(DistinctYears(rows))
                  && d[RegionList] == NamesSection(DistinctNames(rows, WorldPartKey))
                  && d[CountryList] == NamesSection(DistinctNames(rows, CountryKey))
                  && d[CommodityList] == NamesSection(DistinctNames(rows, CommodityKey)))
  {
    var countries := parseCountries(RepairHeader(countryLines));
    var rows := JoinCommodities(trade, commodities);
    rows := JoinCountries(rows, countries);
    result := DashboardSections(rows);
  }

  // ---------------------------------------------------------------------------------------
  // prepare_growth_data.py

  /** The table of prepare_growth_data.py: the commodity join, the commodity fill, the flow
      filter and the dedup. */
  function GrowthRows(trade: seq<RawTrade>, commodities: seq<CommodityRef>): seq<TradeRow> {
    Dedup.KeepFirst(Dedup.FilterFlows(FillCommodity(JoinCommodities(trade, commodities))))
  }

  /** The names a dashboard mapping writes to its file. */
  function Names(d: Dashboard): set<string> {
    set k | k in d :: Name(k)
  }

  /** A mapping that can stand for a JSON object: no two of its keys are spelled alike. */
  predicate UniqueNames(d: Dashboard) {
    forall k1, k2 :: k1 in d && k2 in d && Name(k1) == Name(k2) ==> k1 == k2
  }

  /** Only the named key and `Other` with the same text are spelled like a named key. */
  lemma {:induction false} SpelledLike(k: Key, named: Key)
    requires !named.Other? && Name(k) == Name(named)
    ensures k == named || k == Other(Name(named))
  {
  }

  /** A mapping whose keys come from a mapping with unique names, except the growth keys,
      which no other key of it shares a name with, has unique names too. */
  lemma {:induction false} UniqueNamesAfterGrowth(existing: Dashboard, m: Dashboard)
    requires m.Keys <= existing.Keys + {ExportGrowth, ImportGrowth}
    requires forall k :: k in m && Name(k) == Name(ExportGrowth) ==> k == ExportGrowth
    requires forall k :: k in m && Name(k) == Name(ImportGrowth) ==> k == ImportGrowth
    ensures UniqueNames(existing) ==> UniqueNames(m)
  {
    if UniqueNames(existing) {
      forall k1, k2 | k1 in m && k2 in m && Name(k1) == Name(k2)
        ensures k1 == k2
      {
        if Name(k1) != Name(ExportGrowth) && Name(k1) != Name(ImportGrowth) {
          assert k1 != ExportGrowth && k1 != ImportGrowth && k2 != ExportGrowth && k2 != ImportGrowth;
          assert k1 in existing && k2 in existing;
        }
      }
    }
  }

  /** The names of the mapping after the growth override: the growth keys replace any key
      spelled like them, and every other key stays. */
  lemma {:induction false} NamesAfterGrowth(existing: Dashboard, m: Dashboard)
    requires ExportGrowth in m && ImportGrowth in m
    requires m.Keys <= existing.Keys + {ExportGrowth, ImportGrowth}
    requires forall k :: k in existing && Name(k) != Name(ExportGrowth) && Name(k) != Name(ImportGrowth) ==> k in m
    ensures Names(m) == Names(existing) + {Name(ExportGrowth), Name(ImportGrowth)}
  {
    forall n | n in Names(existing)
      ensures n in Names(m)
    {
      var k :| k in existing && Name(k) == n;
      if Name(k) != Name(ExportGrowth) && Name(k) != Name(ImportGrowth) {
        assert k in m;
      }
    }
    assert Name(ExportGrowth) in Names(m) && Name(ImportGrowth) in Names(m);
  }

  /** A key spelled unlike both growth keys is not one of the stale keys dropped before the
      override, so it keeps its value. */
  lemma {:induction false} KeptAfterGrowth(existing: Dashboard, stale: set<Key>, e: Section, i: Section, m: Dashboard, k: Key)
    requires stale == {Other(Name(ExportGrowth)), Other(Name(ImportGrowth))}
    requires m == (existing - stale) + map[ExportGrowth := e, ImportGrowth := i]
    requires k in existing && Name(k) != Name(ExportGrowth) && Name(k) != Name(ImportGrowth)
    ensures k in m && m[k] == existing[k]
  {
    assert k !in stale && k != ExportGrowth && k != ImportGrowth;
  }

  /** `dashboard_data.update(growth_data)`, which overwrites by name: the two growth names
      then denote exactly the new growth sections, every key spelled otherwise keeps its
      old value, no name is lost, and a mapping with unique names keeps them unique. */
  function WithGrowth(existing: Dashboard, exportGrowth: Section, importGrowth: Section): (m: Dashboard)
    ensures ExportGrowth in m && m[ExportGrowth] == exportGrowth
    ensures ImportGrowth in m && m[ImportGrowth] == importGrowth
    ensures forall k :: k in m && Name(k) == Name(ExportGrowth) ==> k == ExportGrowth
    ensures forall k :: k in m && Name(k) == Name(ImportGrowth) ==> k == ImportGrowth
    ensures forall k :: k in existing && Name(k) != Name(ExportGrowth) && Name(k) != Name(ImportGrowth)
              ==> k in m && m[k] == existing[k]
    ensures m.Keys <= existing.Keys + {ExportGrowth, ImportGrowth}
    ensures Names(m) == Names(existing) + {Name(ExportGrowth), Name(ImportGrowth)}
    ensures UniqueNames(existing) ==> UniqueNames(m)
  {
    var stale := {Other(Name(ExportGrowth)), Other(Name(ImportGrowth))};
    var m := (existing - stale) + map[ExportGrowth := exportGrowth, ImportGrowth := importGrowth];
    assert forall k :: k in m && Name(k) == Name(ExportGrowth) ==> k == ExportGrowth by {
      forall k | k in m && Name(k) == Name(ExportGrowth)
        ensures k == ExportGrowth
      {
        SpelledLike(k, ExportGrowth);
      }
    }
    assert forall k :: k in m && Name(k) == Name(ImportGrowth) ==> k == ImportGrowth by {
      forall k | k in m && Name(k) == Name(ImportGrowth)
        ensures k == ImportGrowth
      {
        SpelledLike(k, ImportGrowth);
      }
    }
    assert forall k :: k in existing && Name(k) != Name(ExportGrowth) && Name(k) != Name(ImportGrowth)
             ==> k in m && m[k] == existing[k] by {
      forall k | k in existing && Name(k) != Name(ExportGrowth) && Name(k) != Name(ImportGrowth)
        ensures k in m && m[k] == existing[k]
      {
        KeptAfterGrowth(existing, stale, exportGrowth, importGrowth, m, k);
      }
    }
    NamesAfterGrowth(existing, m);
    UniqueNamesAfterGrowth(existing, m);
    m
  }

  /** prepare_growth_data.py: computes the export and import growth leaders and merges them
      into the existing dashboard mapping by name, leaving every other section as it was. */
  method PrepareGrowth(trade: seq<RawTrade>, commodities: seq<CommodityRef>, existing: Dashboard)
    returns (dashboard: Dashboard)
    ensures ExportGrowth in dashboard && dashboard[ExportGrowth] == RankingSection(GrowthTop(GrowthRows(trade, commodities), Export))
    ensures ImportGrowth in dashboard && dashboard[ImportGrowth] == RankingSection(GrowthTop(GrowthRows(trade, commodities), Import))
    ensures forall k :: k in dashboard && Name(k) == Name(ExportGrowth) ==> k == ExportGrowth
    ensures forall k :: k in dashboard && Name(k) == Name(ImportGrowth) ==> k == ImportGrowth
    ensures forall k :: k in existing && Name(k) != Name(ExportGrowth) && Name(k) != Name(ImportGrowth)
              ==> k in dashboard && dashboard[k] == existing[k]
    ensures dashboard.Keys <= existing.Keys + {ExportGrowth, ImportGrowth}
    ensures Names(dashboard) == Names(existing) + {Name(ExportGrowth), Name(ImportGrowth)}
    ensures UniqueNames(existing) ==> UniqueNames(dashboard)
  {
    var rows := FillCommodity(JoinCommodities(trade, commodities));
    rows := Dedup.FilterFlows(rows);
    rows := Dedup.DropDuplicates(rows);
    dashboard := WithGrowth(existing, RankingSection(GrowthTop(rows, Export)), RankingSection(GrowthTop(rows, Import)));
  }
}
