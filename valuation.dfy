/**
 * Per-row valuation of the bucket-1 and bucket-3 tables (`calculate_market_value`).
 *
 * A table holds the five input columns the user edits (as one `Row` per line)
 * and, once valued, the three derived columns current price, market value and
 * profit/loss. `Calculate` is the specification of the valuation;
 * `CalculateMarketValue` is the in-place computation on a `Frame`, the mutable
 * table object, column after column as the dashboard does it.
 */
module Valuation {
  import opened Wrappers
  import opened Pricing

  /** One position line: ticker, instrument type, quantity, total cost and notes. */
  datatype Row = Row(
    ticker: Option<string>,
    assetType: Option<string>,
    quantity: real,
    totalCost: real,
    notes: Option<string>)

  /** A table: its input rows and the three optional derived columns. */
  datatype Table = Table(
    rows: seq<Row>,
    currentPrice: Option<seq<real>>,
    marketValue: Option<seq<real>>,
    pl: Option<seq<real>>)
  {
    /** Every derived column that is present has one cell per row. */
    predicate WellFormed()
    {
      && (currentPrice.Some? ==> |currentPrice.value| == |rows|)
      && (marketValue.Some? ==> |marketValue.value| == |rows|)
      && (pl.Some? ==> |pl.value| == |rows|)
    }

    predicate HasDerived()
    {
      currentPrice.Some? && marketValue.Some? && pl.Some?
    }

    /** The table as it is stored between cycles: input columns only. */
    predicate IsStored()
    {
      currentPrice.None? && marketValue.None? && pl.None?
    }

    function InputsOnly(): Table
    {
      Table(rows, None, None, None)
    }
  }

  /** The instrument types that get a market quote, compared exactly. */
  const PricedTypes: seq<string> := ["Stock", "ETF", "Stock/ETF"]

  predicate IsPricedType(assetType: Option<string>)
  {
    assetType.Some? && assetType.value in PricedTypes
  }

  /** The type test is exact: only the three quoted types are priced. */
  lemma PricedTypeExamples()
    ensures IsPricedType(Some("Stock")) && IsPricedType(Some("ETF")) && IsPricedType(Some("Stock/ETF"))
    ensures !IsPricedType(Some("LEAP Call")) && !IsPricedType(Some("Call")) && !IsPricedType(Some("ETF (待建)"))
    ensures !IsPricedType(None)
  {
  }

  /** The current-price cell of a row: the resolved price for a priced type, else zero. */
  function PriceCell(r: Row, source: string -> Quote): real
  {
    if IsPricedType(r.assetType) then ResolvePrice(r.ticker, source) else 0.0
  }

  /** The market-value cell of a row, read from its current-price cell: quantity
      times price for a priced type, else the total cost as a stand-in. */
  function MarketValueCell(r: Row, currentPrice: real): real
  {
    if IsPricedType(r.assetType) then r.quantity * currentPrice else r.totalCost
  }

  function CurrentPriceColumn(rows: seq<Row>, source: string -> Quote): seq<real>
  {
    seq(|rows|, i requires 0 <= i < |rows| => PriceCell(rows[i], source))
  }

  function MarketValueColumn(rows: seq<Row>, prices: seq<real>): seq<real>
    requires |prices| == |rows|
  {
    seq(|rows|, i requires 0 <= i < |rows| => MarketValueCell(rows[i], prices[i]))
  }

  function ProfitLossColumn(rows: seq<Row>, values: seq<real>): seq<real>
    requires |values| == |rows|
  {
    seq(|rows|, i requires 0 <= i < |rows| => values[i] - rows[i].totalCost)
  }

  /** What the three derived cells of a row must be. */
  predicate ValuedRow(r: Row, price: real, value: real, pl: real, source: string -> Quote)
  {
    && (IsPricedType(r.assetType) ==> price == ResolvePrice(r.ticker, source) && value == r.quantity * price)
    && (!IsPricedType(r.assetType) ==> price == 0.0 && value == r.totalCost && pl == 0.0)
    && pl == value - r.totalCost
  }

  /** The valued table: the same rows in the same order, and every row valued by
      its type, whatever derived columns the input already carried. */
  function Calculate(t: Table, source: string -> Quote): (c: Table)
    ensures c.WellFormed() && c.HasDerived()
    ensures c.rows == t.rows
    ensures forall i :: 0 <= i < |c.rows| ==>
      ValuedRow(c.rows[i], c.currentPrice.value[i], c.marketValue.value[i], c.pl.value[i], source)
  {
    var prices := CurrentPriceColumn(t.rows, source);
    var values := MarketValueColumn(t.rows, prices);
    Table(t.rows, Some(prices), Some(values), Some(ProfitLossColumn(t.rows, values)))
  }

  /** The columns dropped before a table is stored; dropping a column that is
      not there fails. */
  function DropDerived(t: Table): (r: Option<Table>)
    ensures r.Some? <==> t.HasDerived()
    ensures r.Some? ==> r.value.rows == t.rows && r.value.IsStored()
  {
    if t.HasDerived() then Some(t.InputsOnly()) else None
  }

  /** Valuing an already valued table changes nothing. */
  lemma CalculateIdempotent(t: Table, source: string -> Quote)
    ensures Calculate(Calculate(t, source), source) == Calculate(t, source)
  {
  }

  /** Only the input columns matter: stale derived columns are overwritten. */
  lemma CalculateReadsInputsOnly(t1: Table, t2: Table, source: string -> Quote)
    requires t1.rows == t2.rows
    ensures Calculate(t1, source) == Calculate(t2, source)
  {
  }

  /** Dropping the derived columns of a valued table gives back its input
      columns and rows; for a stored table that is the table itself. */
  lemma DropAfterCalculate(t: Table, source: string -> Quote)
    ensures DropDerived(Calculate(t, source)) == Some(t.InputsOnly())
    ensures t.IsStored() ==> DropDerived(Calculate(t, source)) == Some(t)
  {
  }

  /** The quote source is consulted only for the tickers of priced rows:
      two sources that agree on those value the table alike. */
  lemma CalculateDependsOnPricedTickers(t: Table, s1: string -> Quote, s2: string -> Quote)
    requires forall i :: 0 <= i < |t.rows| && IsPricedType(t.rows[i].assetType) ==>
      ResolvePrice(t.rows[i].ticker, s1) == ResolvePrice(t.rows[i].ticker, s2)
    ensures Calculate(t, s1) == Calculate(t, s2)
  {
    assert CurrentPriceColumn(t.rows, s1) == CurrentPriceColumn(t.rows, s2);
  }

  /** Valuing a concatenation of two tables values each part on its own. */
  lemma {:induction false} CalculateSplits(a: seq<Row>, b: seq<Row>, source: string -> Quote)
    ensures Calculate(Table(a + b, None, None, None), source).marketValue.value
         == Calculate(Table(a, None, None, None), source).marketValue.value
          + Calculate(Table(b, None, None, None), source).marketValue.value
    ensures Calculate(Table(a + b, None, None, None), source).pl.value
         == Calculate(Table(a, None, None, None), source).pl.value
          + Calculate(Table(b, None, None, None), source).pl.value
  {
    var ab := Calculate(Table(a + b, None, None, None), source);
    var ca := Calculate(Table(a, None, None, None), source);
    var cb := Calculate(Table(b, None, None, None), source);
    assert ab.marketValue.value == ca.marketValue.value + cb.marketValue.value by {
      forall i | 0 <= i < |a + b|
        ensures ab.marketValue.value[i] == (ca.marketValue.value + cb.marketValue.value)[i]
      {
        if i < |a| {
          assert (a + b)[i] == a[i];
        } else {
          assert (a + b)[i] == b[i - |a|];
        }
      }
    }
    assert ab.pl.value == ca.pl.value + cb.pl.value by {
      forall i | 0 <= i < |a + b|
        ensures ab.pl.value[i] == (ca.pl.value + cb.pl.value)[i]
      {
        if i < |a| {
          assert (a + b)[i] == a[i];
        } else {
          assert (a + b)[i] == b[i - |a|];
        }
      }
    }
  }

  /** The mutable table object: input rows plus derived columns that the
      valuation adds or overwrites one whole column at a time. */
  class Frame {
    var rows: seq<Row>
    var currentPrice: Option<seq<real>>
    var marketValue: Option<seq<real>>
    var pl: Option<seq<real>>

    function Value(): Table
      reads this
    {
      Table(rows, currentPrice, marketValue, pl)
    }

    ghost predicate Valid()
      reads this
    {
      Value().WellFormed()
    }

    constructor (t: Table)
      requires t.WellFormed()
      ensures Valid() && Value() == t
    {
      rows, currentPrice, marketValue, pl := t.rows, t.currentPrice, t.marketValue, t.pl;
    }

    /** A new frame with the same contents, sharing nothing with this one. */
    method Copy() returns (c: Frame)
      requires Valid()
      ensures fresh(c) && c.Valid() && c.Value() == Value()
    {
      c := new Frame(Value());
    }

    /** A new frame without the derived columns, or `None` when one of them is
        missing and the drop fails. */
    method Drop() returns (r: Option<Frame>)
      requires Valid()
      ensures r.None? <==> DropDerived(Value()).None?
      ensures r.Some? ==> fresh(r.value) && r.value.Valid() && Some(r.value.Value()) == DropDerived(Value())
    {
      if Value().HasDerived() {
        var f := new Frame(Table(rows, None, None, None));
        r := Some(f);
      } else {
        r := None;
      }
    }
  }

  /** Values a frame in place: writes the current-price column, then the
      market-value column from it, then the profit/loss column. */
  method CalculateMarketValue(df: Frame, source: string -> Quote)
    requires df.Valid()
    modifies df
    ensures df.Valid()
    ensures df.Value() == Calculate(old(df.Value()), source)
  {
    var n := |df.rows|;

    var prices: seq<real> := [];
    var i := 0;
    while i < n
      invariant 0 <= i <= n
      invariant |prices| == i
      invariant forall k :: 0 <= k < i ==> prices[k] == PriceCell(df.rows[k], source)
    {
      prices := prices + [PriceCell(df.rows[i], source)];
      i := i + 1;
    }
    df.currentPrice := Some(prices);

    var values: seq<real> := [];
    i := 0;
    while i < n
      invariant 0 <= i <= n
      invariant |values| == i
      invariant forall k :: 0 <= k < i ==> values[k] == MarketValueCell(df.rows[k], df.currentPrice.value[k])
    {
      values := values + [MarketValueCell(df.rows[i], df.currentPrice.value[i])];
      i := i + 1;
    }
    df.marketValue := Some(values);

    var pls: seq<real> := [];
    i := 0;
    while i < n
      invariant 0 <= i <= n
      invariant |pls| == i
      invariant forall k :: 0 <= k < i ==> pls[k] == df.marketValue.value[k] - df.rows[k].totalCost
    {
      pls := pls + [df.marketValue.value[i] - df.rows[i].totalCost];
      i := i + 1;
    }
    df.pl := Some(pls);

    assert prices == CurrentPriceColumn(df.rows, source);
    assert values == MarketValueColumn(df.rows, prices);
    assert pls == ProfitLossColumn(df.rows, values);
  }
}
