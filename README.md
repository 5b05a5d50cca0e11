# Finland trade dashboard pipeline, modelled in Dafny

Three batch scripts turn Finland's foreign-trade records into the mapping behind a dashboard:

- `data_preparation.py` builds the full dashboard;
- `prepare_dashboard_data.py` builds a lighter variant with filter lists;
- `prepare_growth_data.py` adds the export and import growth leaders to an existing dashboard file.

All three start from the same inputs: the `trade` table, the commodity reference and the country reference. The model starts from these tables as sequences of records, already loaded.

## What is modelled

- **Header repair** (`HeaderRepair`). The country file may repeat its header line `id,text,reporterCodeIsoAlpha3,world_part`. The first repeat at index 1 or later is removed, and only that line. The comment above this code says that later lines go too; the code keeps them, and the model follows the code.
- **Reconciliation** (`Reconcile`).
  - A generic pandas left merge: every left row appears once per matching reference row, in reference order, or once with the reference side missing. Duplicated reference ids therefore duplicate trade rows.
  - The commodity join on `cmdCode` and the country join on `partnerCode`.
  - The fill of missing names with the sentinel `"Неизвестно"`.
  - A missing cell (NaN) is `None`.
  - `sector` is taken from the country reference, as the join intends, although the header literal above does not list it.
- **Filter and deduplication** (`Dedup`).
  - Only `X` (export) and `M` (import) rows are kept.
  - `drop_duplicates` on `(year, partnerCode, cmdCode, flowCode)` keeps the first row of each key. It is a function (`KeepFirst`) with its properties, plus the one-pass loop with a set of seen keys (`DropDuplicates`) proved equal to it.
- **Grouping** (`Grouping`, `Order`).
  - `groupby(...).sum()` skips rows whose key is missing and yields the groups in increasing key order.
  - Strings are ordered as Python orders `str`.
  - `unstack().fillna(0)` becomes a pivot with an export and an import column.
  - `nlargest` and `sort_values(...).head` are a top-n selection built on a sort.
- **Aggregates** (`Aggregates`).
  - Yearly dynamics with balance.
  - Top ten commodities per flow.
  - Sector and region shares.
  - Main partners over the last five years, with balance, turnover and their values in billions.
  - Yearly trade with Russia (partner code 643 or one of three spellings of its name).
  - Declining commodities and partners, comparing the first five years of data with the last five.
  - The sorted filter lists.
- **Missing pivot columns.** A pivot without an `X` or `M` column makes the script stop with a `KeyError`. It is modelled as a `Result` failure carrying the missing column.
  - `MissingFlow` gives the first absent column in the order the script indexes them.
  - `FirstMissing` gives the first failing section in script order.
- **Growth** (`Growth`).
  - Per commodity and flow, the latest year's `value_bln` total minus the total two years earlier.
  - Only commodities with rows in both years take part.
  - The five largest are kept.
- **The scripts** (`Pipelines`). Each script is a method from the loaded tables to the dashboard mapping. Its `ensures` gives every key and every value, or the `KeyError` that stops it.
  - The mapping's keys are a datatype `Key`; `Name` gives the spelling used in the dashboard file.
  - The growth script's `update` overrides by name: a key of the existing mapping spelled like a growth key is replaced, and every other key is kept.

The declining sections run when the latest year minus the earliest is at least 9, as the test at data_preparation.py:120 is written. Its comment asks for ten years of data; the test spans ten calendar years but does not check that each of them has rows, and the model follows the test.

Trade values are `real`, so sums, differences, shares and the division by 10^9 are exact. Parsing the repaired country file is a function parameter (`parseCountries`) of the script methods.

## Model

| member | source | states |
|---|---|---|
| HeaderRepair.IndexFrom | data_preparation.py:14 | `lines.index(h, 1)`: the first position at or after the start that holds the line, or None (Python's ValueError) exactly when no such position exists |
| HeaderRepair.RepairHeader | data_preparation.py:13-17 | if line i is the first repeat of the header at index 1 or later, the result is the lines with exactly line i removed; with no repeat the lines are unchanged; line 0 is always kept |
| HeaderRepair.RepairRemovesOneHeader | prepare_growth_data.py:14-18 | with a repeated header the repaired file is one line shorter, and its lines plus one header copy are the original lines as a multiset; with no repeat nothing changes |
| Reconcile.Expand | data_preparation.py:32 | a left row's expansion in the merge always has at least one row |
| Reconcile.ExpandSpec | data_preparation.py:32 | with the positions of the reference rows that share the left row's key listed in increasing order: none gives a single row with the reference side missing, otherwise the expansion has exactly one row per such position, combined with the reference row at that position, in reference order, so a repeated reference id repeats the trade row |
| Reconcile.LeftJoinKeepsRow | data_preparation.py:32-33 | the left merge is the merge of the rows before row i, then row i's own expansion (never empty), then the merge of the rows after it: no trade row is lost and the order is kept |
| Reconcile.LeftJoinLength | data_preparation.py:32-33 | a left merge has at least as many rows as its left table |
| Reconcile.LeftJoinUniqueIsLookup | data_preparation.py:32 | with unique reference ids the merge has exactly one row per left row, and row i is left row i combined with its matching reference row, if any |
| Reconcile.LookupIsFirst | data_preparation.py:32 | the reference row `Lookup` attaches to a trade row has the trade row's key, and no earlier reference row has that key |
| Reconcile.FillName | data_preparation.py:48-51 | `fillna("Неизвестно")` on one cell: the result is always present, equals a present value and is the sentinel for a missing one |
| Reconcile.FillAll | data_preparation.py:48-51 | the fill keeps the row count and fills exactly the world part, country name, commodity name and sector of each row, leaving the other columns as they were |
| Reconcile.FillCommodity | prepare_growth_data.py:46 | the fill keeps the row count and fills only the commodity name of each row |
| Reconcile.Reconciled | data_preparation.py:31-51 | the joined and filled table has at least one row per trade row, and no row has a missing name, region or sector |
| Reconcile.UnmatchedRowJoined | data_preparation.py:33 | a row with no matching reference row gives exactly one joined row, right after the rows joined from its predecessors, with the reference side missing |
| Reconcile.LeftJoinRows | data_preparation.py:32-33 | every row of a left merge is some left row combined with a reference row of the same key, or with nothing, and then no reference row has that key |
| Reconcile.ReconciledKeepsTradeRows | data_preparation.py:31-51 | every trade row survives both joins and the fill: some reconciled row carries its year, codes, flow and value |
| Reconcile.UnmatchedRowGetsSentinel | data_preparation.py:32-51 | for any reference tables, repeated ids included: every reconciled row whose partner code has no country reference holds the sentinel as country name, world part and sector, and every row whose commodity code has no commodity reference holds it as commodity name |
| Dedup.FilterFlows | data_preparation.py:54 | the result is a subsequence of the input, every kept row is an export or import, and each export or import row is kept as many times as it occurs while every other row is dropped |
| Dedup.KeepFirst | data_preparation.py:55 | `drop_duplicates` on the four-field key gives a subsequence of the input with unique keys and the same set of keys |
| Dedup.KeepFirstKeepsFirsts | data_preparation.py:55 | every row that is the first with its key is kept |
| Dedup.KeepFirstOnlyFirsts | data_preparation.py:55 | every kept row is the first row of the input with its key |
| Dedup.KeepFirstOfUnique | data_preparation.py:55 | a table whose keys are already unique is returned unchanged |
| Dedup.KeepFirstIdempotent | prepare_growth_data.py:50 | deduplicating twice is deduplicating once |
| Dedup.DropDuplicates | data_preparation.py:55 | the one-pass loop with a set of seen keys returns exactly `KeepFirst` of its input |
| Grouping.GroupKeys | data_preparation.py:62 | the group keys of a `groupby` are strictly increasing, and a value is a key exactly when some row has it, so missing keys are dropped and no key repeats |
| Grouping.Pivot | data_preparation.py:62 | `unstack().fillna(0)`: one row per group key, in key order, with the sums of the export rows and of the import rows of that key (0 when there are none) |
| Grouping.GroupsPartition | data_preparation.py:67 | the group totals add up to the total over all rows with a known key: grouping loses and double-counts nothing |
| Grouping.PivotColumnTotals | data_preparation.py:62 | the export and import columns of a pivot add up to the export and import totals of the rows with a known key |
| Grouping.GroupTotals | data_preparation.py:67 | `groupby(key)[v].sum()`: one entry per group key, in key order, holding the key's total |
| Grouping.MaxYear | data_preparation.py:85 | `year.max()` is a year of some row, and no row has a later one |
| Grouping.MinYear | data_preparation.py:118 | `year.min()` is a year of some row, and no row has an earlier one |
| Order.StrLessIsStrictTotal | prepare_dashboard_data.py:81 | Python's order on strings is irreflexive, transitive and total |
| Order.SortedUnique | prepare_dashboard_data.py:80 | `sorted(unique(...))` is strictly increasing and holds exactly the values of its input |
| Order.Largest | data_preparation.py:67 | `nlargest(n)` keeps min(n, size) entries, highest first, drawn from the input as a multiset, and no entry left out scores higher than the last one kept |
| Aggregates.MissingFlow | data_preparation.py:63 | the pivot lacks no flow column exactly when some row with a known key is an export and some is an import; otherwise the result is the first column indexed that is absent (`X` before `M`) |
| Aggregates.TradeDynamics | data_preparation.py:62-64 | fails with the missing column's `KeyError` exactly when a flow column is absent; otherwise it has one row per year of the data, in increasing year order, with that year's export and import sums and balance X − M |
| Aggregates.DynamicsTotals | data_preparation.py:62-63 | the dynamics columns add up to the table's total exports and imports, and the balances to their difference |
| Aggregates.FlowTable | prepare_dashboard_data.py:69-70 | one row per known key, in increasing key order and exactly the keys that occur, with the key's export and import sums |
| Aggregates.FlowTableTotals | data_preparation.py:79 | the export and import columns of a flow table add up to the exports and imports of the rows whose key is known |
| Aggregates.Share | data_preparation.py:74 | a share is missing exactly when the column total is 0; otherwise share × total = value |
| Aggregates.Shares | data_preparation.py:73-82 | fails with the missing column's `KeyError` exactly when a flow column is absent; otherwise row i is flow-table row i with its export share X / ΣX and import share M / ΣM |
| Aggregates.SharesSumToOne | data_preparation.py:74-75 | the share table's columns total the trade of the rows with a known key, and whenever a column total is nonzero its shares sum to 1 |
| Aggregates.Totals | data_preparation.py:67 | one entry per key of a selected row, in increasing key order, each holding the sum of the value over the selected rows of that key; every selected row's key is present |
| Aggregates.TotalsMeaning | data_preparation.py:67 | grouping the selected rows gives, for each group, a key of a selected row and that key's total over the whole table's selected rows |
| Aggregates.SelectedHasTotal | data_preparation.py:67 | a key with a selected row has an entry among the totals |
| Aggregates.TopTotals | data_preparation.py:67-70 | the top ten totals: min(10, number of groups) entries, highest first, each a real group of selected rows with its sum; no group left out has a higher total than the last one kept |
| Aggregates.RecentWindow | data_preparation.py:85-89 | the recent rows all lie between the latest year minus 4 and the latest year, and every row in that range is recent |
| Aggregates.TopPartners | data_preparation.py:85-105 | fails with the missing column's `KeyError` exactly when a recent flow column is absent; otherwise the ten recent partners with the highest turnover, highest first, each with its recent X and M, balance X − M, turnover X + M and both in billions; no partner left out has a higher turnover than the last one kept |
| Aggregates.PartnerRanking | data_preparation.py:92-103 | every entry taken from the partners table is the partner entry of its country over the recent rows |
| Aggregates.RussiaDynamics | data_preparation.py:107-112 | fails with the missing column's `KeyError` exactly as the dynamics of the recent Russia rows would; otherwise one row per recent year with Russia trade, in increasing order, holding that year's Russia exports, imports and balance over the whole table |
| Aggregates.RussiaWindowYears | data_preparation.py:110 | the years of the Russia window's dynamics are exactly the recent years with Russia rows |
| Aggregates.RussiaWindowTotals | data_preparation.py:110 | the window's yearly totals equal the Russia totals of the whole table for those years |
| Aggregates.RussiaYears | data_preparation.py:109-110 | a year occurs in the Russia window exactly when it is recent and some Russia row has it |
| Aggregates.RussiaYearTotal | data_preparation.py:109-110 | for a recent year, the window's flow total is the table's Russia flow total |
| Aggregates.ChangeEntry | data_preparation.py:124-128 | entry i of the change table is a key with rows in one of the halves, its first-half and second-half sums, and change = second − first |
| Aggregates.ChangeTableEntries | data_preparation.py:124-128 | every entry of the change table is the change of its key between the two halves |
| Aggregates.ChangeTableCovers | data_preparation.py:127 | every key with rows in either half has an entry: the outer join loses no key |
| Aggregates.HalfTotal | data_preparation.py:127 | a key's sum over a half is its group total there, or 0 when it has no rows in that half (`fillna(0)`) |
| Aggregates.FallingEntries | data_preparation.py:129 | whatever is drawn from the falling entries of the change table is a change entry with a negative change |
| Aggregates.SmallestChanges | data_preparation.py:129 | `sort_values(by="change").head(n)`: min(n, size) entries drawn from the input, lowest change first, and none left out has a lower change than the last one kept |
| Aggregates.Declining | data_preparation.py:120-139 | empty unless the latest year minus the earliest is at least 9; otherwise the ten entries with the lowest negative change, in increasing order of change, each the real change of its key; no falling entry left out changed less |
| Aggregates.DistinctYears | prepare_dashboard_data.py:80 | the year list is strictly increasing and holds exactly the years of the data |
| Aggregates.DistinctNames | prepare_dashboard_data.py:81-83 | a name list is strictly increasing and holds exactly the non-missing values of its column |
| Growth.GrowthEntry | prepare_growth_data.py:64 | entry i of the growth table is a commodity with rows of the flow in both years, and its delta is its latest-year total minus its earlier total, in billions |
| Growth.GrowthTableEntries | prepare_growth_data.py:64-66 | every entry of the growth table is the growth of its commodity |
| Growth.GrowthTableCovers | prepare_growth_data.py:64-66 | every commodity with rows of the flow in both years has an entry: `dropna()` drops exactly the commodities missing from one year |
| Growth.GrowthTop | prepare_growth_data.py:64-66 | min(5, size) growth entries, largest delta first, each the growth of its commodity; no entry left out grew more than the last one kept; nothing for an empty table |
| Growth.GrowthInBillions | prepare_growth_data.py:43 | a delta in billions is the change of the primary value divided by 10^9 |
| Pipelines.FirstMissing | data_preparation.py:62-112 | no section fails exactly when no check finds a missing column; otherwise the failure is the first check that does |
| Pipelines.FirstMissingAppend | data_preparation.py:62-112 | scanning two groups of sections in turn stops at the first group's failure, if any, and otherwise at the second's |
| Pipelines.PreparedRowsClean | data_preparation.py:31-55 | the prepared table has every name filled in, only exports and imports, unique keys, is a subsequence of the filtered table, and every row is a reconciled row |
| Pipelines.NamedColumnsFollowYears | data_preparation.py:48-82 | once every name is filled, the sector and region pivots lack a flow column exactly when the yearly pivot does |
| Pipelines.PreparationFailureCauses | data_preparation.py:48-112 | on the prepared table the script can only stop at the yearly pivot or in the recent window, never at the sector or region pivots |
| Pipelines.PrepareRows | data_preparation.py:31-55 | the join, fill, filter and dedup steps produce exactly the prepared table |
| Pipelines.PivotSections | data_preparation.py:62-82 | the dynamics, sector shares and region shares in script order: the first missing column stops it, otherwise it returns all three |
| Pipelines.RecentSections | data_preparation.py:85-112 | the partner ranking and the Russia dynamics in script order: the first missing column stops it, otherwise it returns both |
| Pipelines.DataSections | data_preparation.py:59-139 | fails exactly at the first section whose pivot lacks a column, with that `KeyError`; otherwise the mapping has exactly the nine keys of the script, each holding its aggregate |
| Pipelines.PreparationMap | data_preparation.py:59-139 | the mapping has exactly the nine keys of the script, each holding the given section |
| Pipelines.PrepareData | data_preparation.py:9-139 | the whole script: the repaired and parsed country file, the prepared table, and the mapping of `DataSections`, or its `KeyError` |
| Pipelines.DashboardSections | prepare_dashboard_data.py:49-83 | fails exactly at the first of the yearly and sector pivots that lacks a column; otherwise the ten keys of the script: dynamics, top commodities, sector shares, region pivot without shares, the top ten partner totals over all flows of the last five years, and the four sorted lists |
| Pipelines.DashboardMap | prepare_dashboard_data.py:49-83 | the mapping has exactly the ten keys of the script, each holding the given section |
| Pipelines.PrepareDashboard | prepare_dashboard_data.py:9-83 | the whole script: both joins with no fill, filter or dedup, then `DashboardSections` |
| Pipelines.WithGrowth | prepare_growth_data.py:94 | `update` overwrites by name: the names are the old names plus `export_growth` and `import_growth`, each of these two names belongs to exactly one key, holding the new section, every key spelled otherwise keeps its old value, and a mapping with unique names keeps them unique |
| Pipelines.PrepareGrowth | prepare_growth_data.py:32-94 | the whole script: the growth leaders of both flows over the joined, filled, filtered and deduplicated table, written under the two growth names, which no other key then shares, with every key spelled otherwise unchanged and no name lost |

## Left out

- Reading the CSV files, the SQLite database and the dashboard JSON file, and writing the JSON file. The scripts start from loaded record sequences. Parsing the repaired country file is the `parseCountries` parameter.
- `print` output.
- The unused `countries_db_df` table (data_preparation.py:24, prepare_dashboard_data.py:24).
- `astype(int)` and `astype(float)` failures on malformed cells. Years are `int` and values `real` from the start.
- Floating-point rounding: sums, shares and the division by 10^9 are exact over `real`. A share over a zero total, NaN or infinity in pandas, is `None`.
- The `KeyError` pandas raises when the country file has no `sector` column (data_preparation.py:51, prepare_dashboard_data.py:63). The country reference record always carries a sector field, possibly missing per row.
- prepare_growth_data.py repairs and reads the country file but never joins it (prepare_growth_data.py:10-28). `PrepareGrowth` therefore takes no country lines, and the header repair it performs is the same `RepairHeader` as in the other scripts.
- The latest year of an empty table is NaN in pandas. The model reads 0 (`LastYear`), and every section that depends on it is then empty or fails on its pivot first.
- Aggregates.FlowTable: in prepare_dashboard_data.py the pivots are taken before any flow filter, so they also have columns for other flow codes. The model keeps only the `X` and `M` columns, and `DynamicsRow` likewise holds only X, M and balance.
- Aggregates.FlowTable: does not model a pivot column that is absent. The region pivot of prepare_dashboard_data.py (prepare_dashboard_data.py:69-70) never indexes `X` or `M`, so when no row of known world part has one of these flows, pandas writes records without that field. The model writes 0 for it. For example, an import row from a European partner next to an export row whose partner has no world part gives `{"world_part": "Europe", "M": ...}` in pandas and `FlowTotals("Europe", 0.0, ...)` in the model.
- A missing `primaryValue` or `flowCode` in the trade table (NaN in pandas, skipped by the sums and never equal to `X` or `M`). `RawTrade` holds a value and a flow code on every row.
- Order.Largest: does not state which of several entries with equal scores comes first or is kept at the cut.
- Aggregates.SmallestChanges: does not state the order of equal changes, for the same reason.
- The column renames (`text_x`, `text_y`, `period`). The joined record's fields are named directly.
