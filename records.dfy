/** The tables the three scripts work on. A missing cell (NaN) is `None`. */
module Records {
  import opened Wrappers

  /** The sentinel written into missing categorical cells. */
  const Unknown: string := "Неизвестно"
  /** Flow codes of exports and imports; every other flow code is dropped by the filter. */
  const Export: string := "X"
  const Import: string := "M"

  /** A row of the `trade` table as read from the database. */
  datatype RawTrade = RawTrade(period: int, partnerCode: int, cmdCode: int, flowCode: string, primaryValue: real)

  /** A row of the commodity reference (`id`, `text`). */
  datatype CommodityRef = CommodityRef(id: int, text: Option<string>)

  /** A row of the country reference (`id`, `text`, `reporterCodeIsoAlpha3`, `world_part`, `sector`). */
  datatype CountryRef = CountryRef(id: int, text: Option<string>, isoAlpha3: Option<string>,
                                   worldPart: Option<string>, sector: Option<string>)

  /** A trade row after the reference joins and the renames (`period` -> `year`,
      `text_x`/`text` -> `commodity_name`, `text_y` -> `country_name`). */
  datatype TradeRow = TradeRow(year: int, partnerCode: int, cmdCode: int, flowCode: string, primaryValue: real,
                               commodityName: Option<string>, countryName: Option<string>,
                               worldPart: Option<string>, sector: Option<string>)

  /** The natural key of a trade observation. */
  datatype TradeKey = TradeKey(year: int, partnerCode: int, cmdCode: int, flowCode: string)

  function KeyOf(r: TradeRow): TradeKey {
    TradeKey(r.year, r.partnerCode, r.cmdCode, r.flowCode)
  }

  /** The columns the trade table itself contributes to a joined row. */
  function Base(r: TradeRow): RawTrade {
    RawTrade(r.year, r.partnerCode, r.cmdCode, r.flowCode, r.primaryValue)
  }

  function PrimaryValue(r: TradeRow): real {
    r.primaryValue
  }

  const Billion: real := 1000000000.0

  /** The `value_bln` column: the trade value in billions. */
  function ValueBln(r: TradeRow): real {
    r.primaryValue / Billion
  }

  function YearKey(r: TradeRow): Option<int> {
    Some(r.year)
  }

  function CommodityKey(r: TradeRow): Option<string> {
    r.commodityName
  }

  function CountryKey(r: TradeRow): Option<string> {
    r.countryName
  }

  function SectorKey(r: TradeRow): Option<string> {
    r.sector
  }

  function WorldPartKey(r: TradeRow): Option<string> {
    r.worldPart
  }
}
