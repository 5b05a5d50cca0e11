/** Joining trade rows to the reference tables and filling missing names
    (data_preparation.py:30-51, prepare_dashboard_data.py:30-45, prepare_growth_data.py:30-46). */
module Reconcile {
  import opened Wrappers
  import opened Seqs
  import opened Records

  function KeyIs<R>(rkey: R -> int, k: int): R -> bool {
    x => rkey(x) == k
  }

  /** The reference rows whose key equals `k`, in reference order. */
  function Matches<R>(right: seq<R>, rkey: R -> int, k: int): seq<R> {
    Filter(right, KeyIs(rkey, k))
  }

  /** What one left row becomes in a left join: one row per matching reference row,
      or a single row with the reference side missing. */
  function Expand<L, R, O>(l: L, right: seq<R>, lkey: L -> int, rkey: R -> int, combine: (L, Option<R>) -> O): (r: seq<O>)
    ensures |r| >= 1
  {
    var ms := Matches(right, rkey, lkey(l));
    if |ms| == 0 then [combine(l, None)]
    else seq(|ms|, i requires 0 <= i < |ms| => combine(l, Some(ms[i])))
  }

  /** `idx` lists, in increasing order, exactly the positions of the reference rows with key `k`;
      its length is the number of such rows. */
  ghost predicate MatchPositions<R>(idx: seq<int>, right: seq<R>, rkey: R -> int, k: int) {
    && (forall t :: 0 <= t < |idx| ==> 0 <= idx[t] < |right| && rkey(right[idx[t]]) == k)
    && (forall s, t :: 0 <= s < t < |idx| ==> idx[s] < idx[t])
    && (forall j :: 0 <= j < |right| && rkey(right[j]) == k ==> j in idx)
  }

  /** The matches of a non-empty reference table: those of all rows but the last, then the
      last row if its key is `k`. */
  lemma {:induction false} MatchesSnoc<R>(right: seq<R>, rkey: R -> int, k: int)
    requires |right| > 0
    ensures Matches(right, rkey, k)
            == Matches(right[..|right| - 1], rkey, k) + (if rkey(right[|right| - 1]) == k then [right[|right| - 1]] else [])
  {
  }

  /** The positions of the matches do not change when the last row does not match. */
  lemma {:induction false} MatchPositionsSnocMiss<R>(idx: seq<int>, right: seq<R>, rkey: R -> int, k: int)
    requires |right| > 0 && MatchPositions(idx, right[..|right| - 1], rkey, k)
    requires rkey(right[|right| - 1]) != k
    ensures MatchPositions(idx, right, rkey, k)
  {
    var init := right[..|right| - 1];
    assert forall j :: 0 <= j < |init| ==> init[j] == right[j];
  }

  /** The position of a matching last row follows the positions of the earlier matches. */
  lemma {:induction false} MatchPositionsSnocHit<R>(idx: seq<int>, right: seq<R>, rkey: R -> int, k: int)
    requires |right| > 0 && MatchPositions(idx, right[..|right| - 1], rkey, k)
    requires rkey(right[|right| - 1]) == k
    ensures MatchPositions(idx + [|right| - 1], right, rkey, k)
  {
    var n := |right| - 1;
    var init, idx' := right[..n], idx + [n];
    assert forall j :: 0 <= j < |init| ==> init[j] == right[j];
    forall j | 0 <= j < |right| && rkey(right[j]) == k
      ensures j in idx'
    {
      if j == n {
        assert idx'[|idx|] == j;
      } else {
        assert j in idx;
      }
    }
  }

  /** The matching reference rows are the rows at the matching positions, in order. */
  lemma {:induction false} MatchesAt<R>(right: seq<R>, rkey: R -> int, k: int) returns (idx: seq<int>)
    ensures MatchPositions(idx, right, rkey, k) && |idx| == |Matches(right, rkey, k)|
    ensures forall t :: 0 <= t < |idx| ==> Matches(right, rkey, k)[t] == right[idx[t]]
    decreases |right|
  {
    if |right| == 0 {
      idx := [];
    } else {
      var n := |right| - 1;
      var init := right[..n];
      var prev := MatchesAt(init, rkey, k);
      MatchesSnoc(right, rkey, k);
      if rkey(right[n]) == k {
        MatchPositionsSnocHit(prev, right, rkey, k);
        idx := prev + [n];
      } else {
        MatchPositionsSnocMiss(prev, right, rkey, k);
        idx := prev;
      }
      MatchesAtSnoc(right, rkey, k, Matches(init, rkey, k), prev, Matches(right, rkey, k), idx);
    }
  }

  /** The positions of the matches, extended by the last row when it matches, are the
      positions of the matches extended the same way. */
  lemma {:induction false} MatchesAtSnoc<R>(right: seq<R>, rkey: R -> int, k: int, ms: seq<R>, idx: seq<int>, ms': seq<R>, idx': seq<int>)
    requires |right| > 0 && |idx| == |ms|
    requires forall t :: 0 <= t < |idx| ==> 0 <= idx[t] < |right| - 1 && ms[t] == right[..|right| - 1][idx[t]]
    requires idx' == if rkey(right[|right| - 1]) == k then idx + [|right| - 1] else idx
    requires ms' == ms + (if rkey(right[|right| - 1]) == k then [right[|right| - 1]] else [])
    ensures |idx'| == |ms'| && forall t :: 0 <= t < |idx'| ==> ms'[t] == right[idx'[t]]
  {
    forall t | 0 <= t < |idx'|
      ensures ms'[t] == right[idx'[t]]
    {
      if t < |idx| {
        assert right[..|right| - 1][idx[t]] == right[idx[t]];
      }
    }
  }

  /** The merge's multiplicity: with `idx` the positions of the reference rows sharing the
      left row's key, no such row gives one row with the reference side missing, and
      otherwise there is one row per position, each combined with the reference row
      there, in reference order. */
  lemma {:induction false} ExpandSpec<L, R, O>(l: L, right: seq<R>, lkey: L -> int, rkey: R -> int, combine: (L, Option<R>) -> O)
    ensures var r := Expand(l, right, lkey, rkey, combine);
            exists idx :: MatchPositions(idx, right, rkey, lkey(l))
                          && (|idx| == 0 ==> r == [combine(l, None)])
                          && (|idx| > 0 ==> |r| == |idx| && forall t :: 0 <= t < |r| ==> r[t] == combine(l, Some(right[idx[t]])))
  {
    var idx := MatchesAt(right, rkey, lkey(l));
  }

  /** Each row of a left row's expansion is the row combined with a reference row of the
      same key, or with nothing when no reference row has that key. */
  lemma {:induction false} ExpandRows<L, R, O>(l: L, right: seq<R>, lkey: L -> int, rkey: R -> int, combine: (L, Option<R>) -> O)
    ensures var r := Expand(l, right, lkey, rkey, combine);
            forall t :: 0 <= t < |r| ==>
              (r[t] == combine(l, None) && forall x :: x in right ==> rkey(x) != lkey(l))
              || exists x :: x in right && rkey(x) == lkey(l) && r[t] == combine(l, Some(x))
  {
  }

  function ExpandAgainst<L, R, O>(right: seq<R>, lkey: L -> int, rkey: R -> int, combine: (L, Option<R>) -> O): L -> seq<O> {
    l => Expand(l, right, lkey, rkey, combine)
  }

  /** pandas `merge(..., how="left")`: every left row, in order, expanded against the
      reference rows with the same key. */
  function LeftJoin<L, R, O>(left: seq<L>, right: seq<R>, lkey: L -> int, rkey: R -> int, combine: (L, Option<R>) -> O): seq<O> {
    FlatMap(left, ExpandAgainst(right, lkey, rkey, combine))
  }

  /** No left row is lost: the joined table is the join of the rows before row `i`,
      then row `i`'s own expansion (at least one row), then the join of the rows after it. */
  lemma LeftJoinKeepsRow<L, R, O>(left: seq<L>, i: nat, right: seq<R>, lkey: L -> int, rkey: R -> int, combine: (L, Option<R>) -> O)
    requires i < |left|
    ensures |Expand(left[i], right, lkey, rkey, combine)| >= 1
    ensures LeftJoin(left, right, lkey, rkey, combine)
            == LeftJoin(left[..i], right, lkey, rkey, combine)
               + Expand(left[i], right, lkey, rkey, combine)
               + LeftJoin(left[i + 1..], right, lkey, rkey, combine)
  {
    FlatMapAt(left, i, ExpandAgainst(right, lkey, rkey, combine));
  }

  /** Joining never shortens the table. */
  lemma {:induction false} LeftJoinLength<L, R, O>(left: seq<L>, right: seq<R>, lkey: L -> int, rkey: R -> int, combine: (L, Option<R>) -> O)
    ensures |LeftJoin(left, right, lkey, rkey, combine)| >= |left|
    decreases |left|
  {
    if |left| > 0 {
      LeftJoinLength(left[..|left| - 1], right, lkey, rkey, combine);
    }
  }

  /** A reference row with key `k`, if there is one; `LookupIsFirst` shows it is the first. */
  function Lookup<R>(right: seq<R>, rkey: R -> int, k: int): (r: Option<R>)
    ensures r.Some? <==> |Matches(right, rkey, k)| > 0
    ensures r.Some? ==> r.value in right && rkey(r.value) == k
  {
    var ms := Matches(right, rkey, k);
    if |ms| == 0 then None else Some(ms[0])
  }

  /** No reference row before the first matching position has key `k`. */
  lemma {:induction false} FirstPosition<R>(idx: seq<int>, right: seq<R>, rkey: R -> int, k: int)
    requires MatchPositions(idx, right, rkey, k) && |idx| > 0
    ensures forall i :: 0 <= i < idx[0] ==> rkey(right[i]) != k
  {
  }

  /** `Lookup` takes the first reference row with key `k`: no earlier row has that key. */
  lemma {:induction false} LookupIsFirst<R>(right: seq<R>, rkey: R -> int, k: int)
    ensures var r := Lookup(right, rkey, k);
            r.Some? ==> exists j :: 0 <= j < |right| && right[j] == r.value && rkey(right[j]) == k
                                    && forall i :: 0 <= i < j ==> rkey(right[i]) != k
  {
    var idx := MatchesAt(right, rkey, k);
    if |idx| > 0 {
      FirstPosition(idx, right, rkey, k);
      var j := idx[0];
      assert 0 <= j < |right| && right[j] == Lookup(right, rkey, k).value && rkey(right[j]) == k;
    }
  }

  lemma {:induction false} AtMostOneMatch<R>(right: seq<R>, rkey: R -> int, k: int)
    requires UniqueKeys(right, rkey)
    ensures |Matches(right, rkey, k)| <= 1
    decreases |right|
  {
    if |right| > 0 {
      var init := right[..|right| - 1];
      assert UniqueKeys(init, rkey);
      AtMostOneMatch(init, rkey, k);
      var ms := Matches(init, rkey, k);
    }
  }

  lemma ExpandUnique<L, R, O>(l: L, right: seq<R>, lkey: L -> int, rkey: R -> int, combine: (L, Option<R>) -> O)
    requires UniqueKeys(right, rkey)
    ensures Expand(l, right, lkey, rkey, combine) == [combine(l, Lookup(right, rkey, lkey(l)))]
  {
    AtMostOneMatch(right, rkey, lkey(l));
  }

  /** The join of a non-empty table is the join of all rows but the last, then the last row's expansion. */
  lemma LeftJoinSnoc<L, R, O>(left: seq<L>, right: seq<R>, lkey: L -> int, rkey: R -> int, combine: (L, Option<R>) -> O)
    requires |left| > 0
    ensures LeftJoin(left, right, lkey, rkey, combine)
            == LeftJoin(left[..|left| - 1], right, lkey, rkey, combine) + Expand(left[|left| - 1], right, lkey, rkey, combine)
  {
    assert ExpandAgainst(right, lkey, rkey, combine)(left[|left| - 1]) == Expand(left[|left| - 1], right, lkey, rkey, combine);
  }

  /** `o` is a row of the merge of `left` with `right`: a left row combined with a reference
      row of the same key, or with nothing when no reference row has that key. */
  ghost predicate JoinedFrom<L, R, O>(o: O, left: seq<L>, right: seq<R>, lkey: L -> int, rkey: R -> int, combine: (L, Option<R>) -> O) {
    exists l :: l in left &&
      ((o == combine(l, None) && forall x :: x in right ==> rkey(x) != lkey(l))
       || exists x :: x in right && rkey(x) == lkey(l) && o == combine(l, Some(x)))
  }

  /** Every row of a left merge comes from a left row, and has the reference side missing
      only when no reference row matches. */
  lemma {:induction false} LeftJoinRows<L, R, O>(left: seq<L>, right: seq<R>, lkey: L -> int, rkey: R -> int, combine: (L, Option<R>) -> O)
    ensures var j := LeftJoin(left, right, lkey, rkey, combine);
            forall t :: 0 <= t < |j| ==> JoinedFrom(j[t], left, right, lkey, rkey, combine)
    decreases |left|
  {
    if |left| > 0 {
      var n := |left| - 1;
      var init, l := left[..n], left[n];
      LeftJoinRows(init, right, lkey, rkey, combine);
      LeftJoinSnoc(left, right, lkey, rkey, combine);
      ExpandRows(l, right, lkey, rkey, combine);
      var ji := LeftJoin(init, right, lkey, rkey, combine);
      var e := Expand(l, right, lkey, rkey, combine);
      var j := LeftJoin(left, right, lkey, rkey, combine);
      assert j == ji + e;
      forall t | 0 <= t < |j|
        ensures JoinedFrom(j[t], left, right, lkey, rkey, combine)
      {
        if t < |ji| {
          assert j[t] == ji[t];
          var l' :| l' in init &&
            ((ji[t] == combine(l', None) && forall x :: x in right ==> rkey(x) != lkey(l'))
             || exists x :: x in right && rkey(x) == lkey(l') && ji[t] == combine(l', Some(x)));
          assert l' in left;
        } else {
          assert j[t] == e[t - |ji|];
          assert l in left;
        }
      }
    }
  }

  /** With unique reference keys a left join is a row-by-row lookup: no row is added. */
  lemma {:induction false} LeftJoinUniqueIsLookup<L, R, O>(left: seq<L>, right: seq<R>, lkey: L -> int, rkey: R -> int, combine: (L, Option<R>) -> O)
    requires UniqueKeys(right, rkey)
    ensures |LeftJoin(left, right, lkey, rkey, combine)| == |left|
    ensures forall i :: 0 <= i < |left| ==>
              LeftJoin(left, right, lkey, rkey, combine)[i] == combine(left[i], Lookup(right, rkey, lkey(left[i])))
    decreases |left|
  {
    if |left| > 0 {
      var n := |left| - 1;
      var init, l := left[..n], left[n];
      LeftJoinUniqueIsLookup(init, right, lkey, rkey, combine);
      var ji := LeftJoin(init, right, lkey, rkey, combine);
      var e := Expand(l, right, lkey, rkey, combine);
      ExpandUnique(l, right, lkey, rkey, combine);
      var j := LeftJoin(left, right, lkey, rkey, combine);
      LeftJoinSnoc(left, right, lkey, rkey, combine);
      SnocLookup(left, right, lkey, rkey, combine, ji, e, j);
    }
  }

  /** Extending the row-by-row lookup of all rows but the last by the lookup of the last row
      gives the row-by-row lookup of the whole table. */
  lemma SnocLookup<L, R, O>(left: seq<L>, right: seq<R>, lkey: L -> int, rkey: R -> int, combine: (L, Option<R>) -> O,
                            init: seq<O>, last: seq<O>, whole: seq<O>)
    requires |left| > 0 && |init| == |left| - 1
    requires forall i :: 0 <= i < |left[..|left| - 1]| ==>
               init[i] == combine(left[..|left| - 1][i], Lookup(right, rkey, lkey(left[..|left| - 1][i])))
    requires last == [combine(left[|left| - 1], Lookup(right, rkey, lkey(left[|left| - 1])))] && whole == init + last
    ensures |whole| == |left|
    ensures forall i :: 0 <= i < |left| ==> whole[i] == combine(left[i], Lookup(right, rkey, lkey(left[i])))
  {
    forall i | 0 <= i < |left|
      ensures whole[i] == combine(left[i], Lookup(right, rkey, lkey(left[i])))
    {
      if i < |init| {
        assert left[..|left| - 1][i] == left[i];
      }
    }
  }

  /** The commodity join: `text` becomes `commodity_name`; country columns are not joined yet. */
  function WithCommodity(t: RawTrade, c: Option<CommodityRef>): TradeRow {
    TradeRow(t.period, t.partnerCode, t.cmdCode, t.flowCode, t.primaryValue,
             if c.Some? then c.value.text else None, None, None, None)
  }

  /** The country join: `text` becomes `country_name`, with `world_part` and `sector`. */
  function WithCountry(r: TradeRow, c: Option<CountryRef>): TradeRow {
    if c.Some? then r.(countryName := c.value.text, worldPart := c.value.worldPart, sector := c.value.sector)
    else r.(countryName := None, worldPart := None, sector := None)
  }

  function TradeCmdCode(t: RawTrade): int { t.cmdCode }
  function RowPartnerCode(r: TradeRow): int { r.partnerCode }
  function CommodityId(c: CommodityRef): int { c.id }
  function CountryId(c: CountryRef): int { c.id }

  /** `trade.merge(commodities, left_on="cmdCode", right_on="id", how="left")` with the renames. */
  function JoinCommodities(trade: seq<RawTrade>, commodities: seq<CommodityRef>): seq<TradeRow> {
    LeftJoin(trade, commodities, TradeCmdCode, CommodityId, WithCommodity)
  }

  /** `trade.merge(countries, left_on="partnerCode", right_on="id", how="left")` with the renames. */
  function JoinCountries(rows: seq<TradeRow>, countries: seq<CountryRef>): seq<TradeRow> {
    LeftJoin(rows, countries, RowPartnerCode, CountryId, WithCountry)
  }

  /** `fillna("Неизвестно")` on one cell. */
  function FillName(o: Option<string>): (r: Option<string>)
    ensures r.Some?
    ensures o.Some? ==> r == o
    ensures o.None? ==> r == Some(Unknown)
  {
    Some(o.GetOr(Unknown))
  }

  /** `fillna` on `world_part`, `country_name`, `commodity_name` and `sector` (data_preparation.py). */
  function FillAll(rows: seq<TradeRow>): (r: seq<TradeRow>)
    ensures |r| == |rows|
    ensures forall i :: 0 <= i < |r| ==>
              r[i] == rows[i].(commodityName := FillName(rows[i].commodityName),
                               countryName := FillName(rows[i].countryName),
                               worldPart := FillName(rows[i].worldPart),
                               sector := FillName(rows[i].sector))
  {
    seq(|rows|, i requires 0 <= i < |rows| =>
      rows[i].(commodityName := FillName(rows[i].commodityName),
               countryName := FillName(rows[i].countryName),
               worldPart := FillName(rows[i].worldPart),
               sector := FillName(rows[i].sector)))
  }

  /** `fillna` on `commodity_name` only (prepare_growth_data.py). */
  function FillCommodity(rows: seq<TradeRow>): (r: seq<TradeRow>)
    ensures |r| == |rows|
    ensures forall i :: 0 <= i < |r| ==> r[i] == rows[i].(commodityName := FillName(rows[i].commodityName))
  {
    seq(|rows|, i requires 0 <= i < |rows| => rows[i].(commodityName := FillName(rows[i].commodityName)))
  }

  ghost predicate AllNamed(rows: seq<TradeRow>) {
    forall i :: 0 <= i < |rows| ==>
      rows[i].commodityName.Some? && rows[i].countryName.Some? && rows[i].worldPart.Some? && rows[i].sector.Some?
  }

  /** The reconciled table of data_preparation.py: both joins, then the sentinel fill.
      Every trade row survives and no cell is left missing. */
  function Reconciled(trade: seq<RawTrade>, commodities: seq<CommodityRef>, countries: seq<CountryRef>): (r: seq<TradeRow>)
    ensures |r| >= |trade|
    ensures AllNamed(r)
  {
    var joined := JoinCommodities(trade, commodities);
    LeftJoinLength(trade, commodities, TradeCmdCode, CommodityId, WithCommodity);
    LeftJoinLength(joined, countries, RowPartnerCode, CountryId, WithCountry);
    FillAll(JoinCountries(joined, countries))
  }

  /** A left row without a matching reference row yields exactly one joined row, placed
      after the rows joined from its predecessors, with the reference side missing. */
  lemma UnmatchedRowJoined<L, R, O>(left: seq<L>, i: nat, right: seq<R>, lkey: L -> int, rkey: R -> int, combine: (L, Option<R>) -> O)
    requires i < |left|
    requires forall x :: x in right ==> rkey(x) != lkey(left[i])
    ensures var k := |LeftJoin(left[..i], right, lkey, rkey, combine)|;
            k < |LeftJoin(left, right, lkey, rkey, combine)|
            && LeftJoin(left, right, lkey, rkey, combine)[k] == combine(left[i], None)
  {
    LeftJoinKeepsRow(left, i, right, lkey, rkey, combine);
    ExpandSpec(left[i], right, lkey, rkey, combine);
  }

  /** Every trade row survives both joins and the fill: some reconciled row carries its
      own year, codes, flow and value. */
  lemma {:induction false} ReconciledKeepsTradeRows(trade: seq<RawTrade>, commodities: seq<CommodityRef>, countries: seq<CountryRef>)
    ensures var r := Reconciled(trade, commodities, countries);
            forall i :: 0 <= i < |trade| ==> exists k :: 0 <= k < |r| && Base(r[k]) == trade[i]
  {
    var joined := JoinCommodities(trade, commodities);
    var both := JoinCountries(joined, countries);
    var r := Reconciled(trade, commodities, countries);
    forall i | 0 <= i < |trade|
      ensures exists k :: 0 <= k < |r| && Base(r[k]) == trade[i]
    {
      LeftJoinKeepsRow(trade, i, commodities, TradeCmdCode, CommodityId, WithCommodity);
      var e1 := Expand(trade[i], commodities, TradeCmdCode, CommodityId, WithCommodity);
      var j1 := |JoinCommodities(trade[..i], commodities)|;
      assert joined[j1] == e1[0];
      ExpandRows(trade[i], commodities, TradeCmdCode, CommodityId, WithCommodity);
      assert Base(joined[j1]) == trade[i];
      LeftJoinKeepsRow(joined, j1, countries, RowPartnerCode, CountryId, WithCountry);
      var e2 := Expand(joined[j1], countries, RowPartnerCode, CountryId, WithCountry);
      var j2 := |JoinCountries(joined[..j1], countries)|;
      assert both[j2] == e2[0];
      ExpandRows(joined[j1], countries, RowPartnerCode, CountryId, WithCountry);
      assert Base(r[j2]) == Base(both[j2]) == trade[i];
    }
  }

  /** The sentinel fill after the joins: every reconciled row whose partner has no country
      reference holds the sentinel as country name, world part and sector, and every row
      whose commodity has no commodity reference holds it as commodity name, whatever
      ids the reference tables repeat. */
  lemma {:induction false} UnmatchedRowGetsSentinel(trade: seq<RawTrade>, commodities: seq<CommodityRef>, countries: seq<CountryRef>)
    ensures var r := Reconciled(trade, commodities, countries);
            forall k :: 0 <= k < |r| && (forall c :: c in countries ==> c.id != r[k].partnerCode) ==>
              r[k].countryName == Some(Unknown) && r[k].worldPart == Some(Unknown) && r[k].sector == Some(Unknown)
    ensures var r := Reconciled(trade, commodities, countries);
            forall k :: 0 <= k < |r| && (forall c :: c in commodities ==> c.id != r[k].cmdCode) ==>
              r[k].commodityName == Some(Unknown)
  {
    var joined := JoinCommodities(trade, commodities);
    var both := JoinCountries(joined, countries);
    var r := Reconciled(trade, commodities, countries);
    LeftJoinRows(trade, commodities, TradeCmdCode, CommodityId, WithCommodity);
    LeftJoinRows(joined, countries, RowPartnerCode, CountryId, WithCountry);
    forall k | 0 <= k < |r|
      ensures (forall c :: c in countries ==> c.id != r[k].partnerCode) ==>
                r[k].countryName == Some(Unknown) && r[k].worldPart == Some(Unknown) && r[k].sector == Some(Unknown)
      ensures (forall c :: c in commodities ==> c.id != r[k].cmdCode) ==> r[k].commodityName == Some(Unknown)
    {
      SentinelRow(trade, commodities, countries, joined, both[k]);
    }
  }

  /** One row of the country join, traced back through both joins. */
  lemma {:induction false} SentinelRow(trade: seq<RawTrade>, commodities: seq<CommodityRef>, countries: seq<CountryRef>,
                    joined: seq<TradeRow>, o: TradeRow)
    requires forall t :: 0 <= t < |joined| ==> JoinedFrom(joined[t], trade, commodities, TradeCmdCode, CommodityId, WithCommodity)
    requires JoinedFrom(o, joined, countries, RowPartnerCode, CountryId, WithCountry)
    ensures (forall c :: c in countries ==> c.id != o.partnerCode) ==>
              o.countryName.None? && o.worldPart.None? && o.sector.None?
    ensures (forall c :: c in commodities ==> c.id != o.cmdCode) ==> o.commodityName.None?
  {
    var row :| row in joined &&
      ((o == WithCountry(row, None) && forall x :: x in countries ==> CountryId(x) != RowPartnerCode(row))
       || exists x :: x in countries && CountryId(x) == RowPartnerCode(row) && o == WithCountry(row, Some(x)));
    assert o.partnerCode == row.partnerCode && o.cmdCode == row.cmdCode && o.commodityName == row.commodityName;
    var t :| 0 <= t < |joined| && joined[t] == row;
    var tr :| tr in trade &&
      ((row == WithCommodity(tr, None) && forall x :: x in commodities ==> CommodityId(x) != TradeCmdCode(tr))
       || exists x :: x in commodities && CommodityId(x) == TradeCmdCode(tr) && row == WithCommodity(tr, Some(x)));
    assert row.cmdCode == tr.cmdCode;
  }
}
