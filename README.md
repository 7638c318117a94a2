# Three-bucket portfolio dashboard: valuation and overview

This project models the computing core of a small portfolio dashboard that keeps
positions in three "buckets": bucket 1 (long-term core holdings), bucket 2
(income strategies, tracked only by the margin they use) and bucket 3
(speculative trades). On every cycle the dashboard:

1. resolves a price per ticker: no lookup for a missing, empty or `"N/A"`
   ticker; otherwise the live last price, or the first daily close when the
   live price is zero; any failure of the guarded lookup gives 0;
2. copies the stored tables and values each bucket-1 and bucket-3 row: rows whose
   type is exactly `Stock`, `ETF` or `Stock/ETF` get `current_price` from the
   price lookup and `market_value = quantity × current_price`. Every other type
   (`LEAP Call`, `Call`, `ETF (待建)`, …) gets `current_price = 0` and is carried
   at its total cost. `p_l = market_value − total_cost` on every row;
3. sums the bucket market values and the bucket-2 `margin_used`, and computes
   `total_assets = b1 + b3` and `cash_available = 100000 − b1 − b3 − b2 margin`;
4. stores the edited tables back into the session, dropping `current_price`,
   `market_value` and `p_l` from buckets 1 and 3 and storing bucket 2 as it is.

Modules:

- `Wrappers` (wrappers.dfy): `Option`.
- `Pricing` (pricing.dfy): the price-resolution decision. The two quote lookups
  are an injected quote source `string -> Quote`. A `Quote` holds `Option<real>`
  per lookup, and `None` means that lookup raised.
- `Valuation` (valuation.dfy): the `Row` and `Table` values and `Calculate`, the
  specification of the valuation. It also holds the mutable `Frame` class (the
  table object) and `CalculateMarketValue`, which writes the three derived
  columns into a frame one after the other, as the dashboard does.
- `Totals` (totals.dfy): column sums, the `Overview` figures and the lemmas
  that relate the totals to the rows.
- `Dashboard` (dashboard.dfy): the `Session` store. It has the copy-then-value
  step (`Evaluate`), the write-back (`WriteBack`) and a cycle without edits
  (`RefreshCycle`).

Money is `real`, with exact arithmetic. A live lookup that raises gives 0 at
once. The daily close is read only when the live price is zero. The capital is
the constant 100000.

## Model

| member | source | states |
|---|---|---|
| `Pricing.ResolvePrice` | app.py:20-32 | A blank ticker gives 0; a nonzero price only ever comes from a non-blank ticker whose guarded lookup returned that price |
| `Pricing.BlankTickerNeverLooksUp` | app.py:22-23 | A `None`, `""` or `"N/A"` ticker resolves to 0 under every quote source, so the source plays no part |
| `Pricing.ResolvePriceCases` | app.py:24-32 | For any other ticker: a failed live lookup gives 0; a nonzero live price is returned unchanged; a zero live price is replaced by the first daily close; a failed close lookup gives 0 |
| `Pricing.ZeroPriceExactly` | app.py:20-32 | The price is 0 exactly when the ticker is blank, the live lookup failed, or the live price is 0 and the close lookup failed or is 0 |
| `Pricing.PriceDependsOnlyOnOwnQuote` | app.py:24-28 | The price of a ticker depends only on that ticker's own quote |
| `Valuation.PricedTypeExamples` | app.py:83 | The type test is exact: `Stock`, `ETF` and `Stock/ETF` are priced; `LEAP Call`, `Call`, `ETF (待建)` and a missing type are not |
| `Valuation.Calculate` | app.py:80-92 | Keeps the rows (count, order, input fields). It adds all three derived columns with one cell per row. A priced row has `current_price = price(ticker)` and `market_value = quantity × current_price`. A non-priced row has `current_price = 0`, `market_value = total_cost` and `p_l = 0`. Every row has `p_l = market_value − total_cost` |
| `Valuation.CalculateIdempotent` | app.py:82-91 | Valuing an already valued table with the same quote source gives the same table |
| `Valuation.CalculateReadsInputsOnly` | app.py:82-91 | Two tables with the same input rows value identically, whatever stale derived columns they carry |
| `Valuation.CalculateDependsOnPricedTickers` | app.py:82-85 | Two quote sources that agree on the tickers of priced rows give the same valued table, so no other row consults the source |
| `Valuation.CalculateSplits` | app.py:82-91 | Valuing the concatenation of two row lists gives the concatenation of their market-value and profit/loss columns |
| `Valuation.DropDerived` | app.py:168-170 | Succeeds exactly when all three derived columns are present, and then keeps the rows and leaves no derived column |
| `Valuation.DropAfterCalculate` | app.py:168-170 | Dropping the derived columns of a valued table gives back exactly its input rows; for a stored table that is the table itself |
| `Valuation.Frame.constructor` | app.py:47 | A new table object holds exactly the given table |
| `Valuation.Frame.Copy` | app.py:75-77 | The copy is a fresh object with the same contents |
| `Valuation.Frame.Drop` | app.py:168 | Fails exactly when a derived column is missing; otherwise returns a fresh object holding the input columns only |
| `Valuation.CalculateMarketValue` | app.py:80-92 | Writes the current-price column, then the market-value column read from it, then the profit/loss column; the frame ends equal to `Calculate` of its old contents |
| `Totals.Summarize` | app.py:98-105 | Bucket values are the sums of the market-value columns and the bucket-2 margin is the sum of `margin_used`. `total_assets = b1 + b3`, and `b1 + b3 + b2 margin + cash_available = 100000` |
| `Totals.SumConcat` | app.py:98-100 | A column total over two parts is the sum of the parts' totals |
| `Totals.ValueIsCostPlusProfit` | app.py:91-99 | A valued bucket's total market value equals its total cost plus its total profit/loss |
| `Totals.UnpricedBucketAtCost` | app.py:87-99 | A bucket with no priced row is worth exactly its total cost and shows zero total profit/loss |
| `Totals.BucketTotalSplits` | app.py:98-99 | Splitting a bucket's rows into two tables splits its total market value and total profit/loss between them |
| `Totals.SeedBucketOneScenario` | app.py:40-46 | The starting bucket 1 (its rows as stored at start, notes included), with AVGO live at 200 and META's live price 0 but its close at 500, has market values 20000, 4000, 10000, 0, 0 and profit/loss 3200, 0, 4000, 0, 0 |
| `Totals.SeedBucketOneTotal` | app.py:98 | The bucket-1 total of that scenario is 34000 |
| `Dashboard.Session.constructor` | app.py:39-69 | The first store holds the starting tables with input columns only |
| `Dashboard.Session.Evaluate` | app.py:75-105 | Values fresh copies and leaves the stored tables untouched. The copies equal `Calculate` of the stored tables, bucket 2 is passed through, and the overview is `Summarize` of the valued tables |
| `Dashboard.Session.WriteBack` | app.py:168-170 | Stores bucket 1 without its derived columns, then bucket 2 as it is, then bucket 3 without its derived columns. A missing derived column stops the write-back at that step. The stored bucket-1 and bucket-3 tables are new objects, and the store keeps holding input-only tables |
| `Dashboard.Session.RefreshCycle` | app.py:75-170 | A cycle with no edits yields the overview of the stored tables and leaves the store holding new objects with the same contents |

## Left out

- Page layout, titles, captions, metric tiles and their percentage strings, the data editors and their column settings, and the refresh button: these are presentation. The editor's output is a parameter of `WriteBack`.
- The quote library: the live and daily-close lookups are the injected `Quote` source. A lookup that returns something other than a number (such as a missing value) is not modelled.
- The five-minute price cache and its clearing on refresh: this is framework memoisation with wall-clock expiry. The quote source is a fixed function, which is what the cache gives within its window.
- The clock-dependent footer.
- The hard-coded starting tables and the first-run session initialisation: the starting tables are constructor parameters (bucket 1's appears in one scenario lemma).
- Floating-point rounding, NaN cells from blank numeric entries, and pandas coercions: money is exact `real` and every numeric cell holds a number.
- `total_b2_income`: it is computed but not used by any rule.
- Pandas' `apply` on a table with no rows: the model gives empty derived columns.
- The session store's bucket-2 table is a value (`seq<StrategyRow>`), not an object. It is never changed in place, so only the storing of the edited table is modelled.
