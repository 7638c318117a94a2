/**
 * The overview figures: bucket totals, bucket-2 margin, total assets and the
 * cash left out of the fixed capital.
 */
module Totals {
  import opened Wrappers
  import opened Pricing
  import opened Valuation

  /** One line of the bucket-2 strategy table; it is never valued, only summed and stored. */
  datatype StrategyRow = StrategyRow(
    strategy: Option<string>,
    ticker: Option<string>,
    marginUsed: real,
    targetPremiumMonthly: real,
    notes: Option<string>)

  /** The capital the dashboard measures every bucket against. */
  const TotalCapital: real := 100000.0

  /** The headline figures of the dashboard. */
  datatype Overview = Overview(
    b1Value: real,
    b3Value: real,
    b2Margin: real,
    totalAssets: real,
    cashAvailable: real)

  /** The sum of a column. */
  function Sum(xs: seq<real>): real
  {
    if xs == [] then 0.0 else xs[0] + Sum(xs[1..])
  }

  function MarginColumn(b2: seq<StrategyRow>): seq<real>
  {
    seq(|b2|, i requires 0 <= i < |b2| => b2[i].marginUsed)
  }

  function CostColumn(rows: seq<Row>): seq<real>
  {
    seq(|rows|, i requires 0 <= i < |rows| => rows[i].totalCost)
  }

  /** The overview of one cycle, read from the valued bucket-1 and bucket-3
      tables and the bucket-2 table. Assets are the two valued buckets; cash is
      whatever of the capital neither they nor the bucket-2 margin take up. */
  function Summarize(b1: Table, b2: seq<StrategyRow>, b3: Table): (o: Overview)
    requires b1.marketValue.Some? && b3.marketValue.Some?
    ensures o.b1Value == Sum(b1.marketValue.value)
    ensures o.b3Value == Sum(b3.marketValue.value)
    ensures o.b2Margin == Sum(MarginColumn(b2))
    ensures o.totalAssets == o.b1Value + o.b3Value
    ensures o.b1Value + o.b3Value + o.b2Margin + o.cashAvailable == TotalCapital
  {
    var v1 := Sum(b1.marketValue.value);
    var v3 := Sum(b3.marketValue.value);
    var m2 := Sum(MarginColumn(b2));
    Overview(v1, v3, m2, v1 + v3, TotalCapital - v1 - v3 - m2)
  }

  /** A total over two parts is the sum of the parts' totals. */
  lemma {:induction false} SumConcat(a: seq<real>, b: seq<real>)
    ensures Sum(a + b) == Sum(a) + Sum(b)
  {
    if a == [] {
      assert a + b == b;
    } else {
      assert (a + b)[1..] == a[1..] + b;
      SumConcat(a[1..], b);
    }
  }

  /** The total of a cell-by-cell difference is the difference of the totals. */
  lemma {:induction false} SumDifference(xs: seq<real>, ys: seq<real>, ds: seq<real>)
    requires |xs| == |ys| == |ds|
    requires forall i :: 0 <= i < |ds| ==> ds[i] == xs[i] - ys[i]
    ensures Sum(ds) == Sum(xs) - Sum(ys)
  {
    if ds != [] {
      SumDifference(xs[1..], ys[1..], ds[1..]);
    }
  }

  /** The bucket total of a valued table equals its total cost plus its total
      profit/loss, so no row is counted twice or left out. */
  lemma ValueIsCostPlusProfit(t: Table, source: string -> Quote)
    ensures var c := Calculate(t, source);
      Sum(c.marketValue.value) == Sum(CostColumn(t.rows)) + Sum(c.pl.value)
  {
    var c := Calculate(t, source);
    SumDifference(c.marketValue.value, CostColumn(t.rows), c.pl.value);
  }

  /** A bucket with no priced row is worth exactly its cost and shows no profit/loss. */
  lemma UnpricedBucketAtCost(t: Table, source: string -> Quote)
    requires forall i :: 0 <= i < |t.rows| ==> !IsPricedType(t.rows[i].assetType)
    ensures Sum(Calculate(t, source).marketValue.value) == Sum(CostColumn(t.rows))
    ensures Sum(Calculate(t, source).pl.value) == 0.0
  {
    var c := Calculate(t, source);
    assert c.marketValue.value == CostColumn(t.rows);
    SumDifference(c.marketValue.value, CostColumn(t.rows), c.pl.value);
  }

  /** Splitting a bucket's rows into two tables splits its total market value
      and total profit/loss accordingly. */
  lemma BucketTotalSplits(a: seq<Row>, b: seq<Row>, source: string -> Quote)
    ensures Sum(Calculate(Table(a + b, None, None, None), source).marketValue.value)
         == Sum(Calculate(Table(a, None, None, None), source).marketValue.value)
          + Sum(Calculate(Table(b, None, None, None), source).marketValue.value)
    ensures Sum(Calculate(Table(a + b, None, None, None), source).pl.value)
         == Sum(Calculate(Table(a, None, None, None), source).pl.value)
          + Sum(Calculate(Table(b, None, None, None), source).pl.value)
  {
    CalculateSplits(a, b, source);
    SumConcat(Calculate(Table(a, None, None, None), source).marketValue.value,
              Calculate(Table(b, None, None, None), source).marketValue.value);
    SumConcat(Calculate(Table(a, None, None, None), source).pl.value,
              Calculate(Table(b, None, None, None), source).pl.value);
  }

  /** The bucket-1 starting table of the dashboard. */
  function SeedBucketOne(): seq<Row>
  {
    [ Row(Some("AVGO"), Some("Stock"), 100.0, 16800.0, Some("明星持仓")),
      Row(Some("NVDA"), Some("LEAP Call"), 1.0, 4000.0, Some("Dec'27 $170 Call")),
      Row(Some("META"), Some("Stock"), 20.0, 6000.0, Some("")),
      Row(Some("VOO"), Some("ETF (待建)"), 0.0, 0.0, Some("目标 $15-20k")),
      Row(Some("QQQ"), Some("ETF (待建)"), 0.0, 0.0, Some("目标 $5-10k")) ]
  }

  /** A quote source where AVGO trades live at 200, META has no live price but
      closed at 500, and every other lookup raises. */
  function ScenarioQuote(s: string): Quote
  {
    if s == "AVGO" then Quote(Some(200.0), None)
    else if s == "META" then Quote(Some(0.0), Some(500.0))
    else Quote(None, None)
  }

  /** Valuing the starting bucket 1 under that source: the stock rows are
      priced (META through the close fallback), the LEAP call and the two
      "ETF (待建)" placeholders stay at cost. */
  lemma SeedBucketOneScenario()
    ensures var c := Calculate(Table(SeedBucketOne(), None, None, None), ScenarioQuote);
      && c.marketValue.value == [20000.0, 4000.0, 10000.0, 0.0, 0.0]
      && c.pl.value == [3200.0, 0.0, 4000.0, 0.0, 0.0]
  {
    SeedRow0Valued();
    SeedRow1Valued();
    SeedRow2Valued();
    SeedRow3Valued();
    SeedRow4Valued();
  }

  /** Row 0 of the scenario: AVGO, a stock quoted live at 200. */
  lemma SeedRow0Valued()
    ensures var c := Calculate(Table(SeedBucketOne(), None, None, None), ScenarioQuote);
      c.marketValue.value[0] == 20000.0 && c.pl.value[0] == 3200.0
  {
    var rows := SeedBucketOne();
    var c := Calculate(Table(rows, None, None, None), ScenarioQuote);
    assert rows[0] == Row(Some("AVGO"), Some("Stock"), 100.0, 16800.0, Some("明星持仓"));
    assert IsPricedType(rows[0].assetType) by { assert PricedTypes[0] == "Stock"; }
    assert ResolvePrice(Some("AVGO"), ScenarioQuote) == 200.0;
    assert ValuedRow(rows[0], c.currentPrice.value[0], c.marketValue.value[0], c.pl.value[0], ScenarioQuote);
  }

  /** Row 1 of the scenario: NVDA, a LEAP call carried at cost. */
  lemma SeedRow1Valued()
    ensures var c := Calculate(Table(SeedBucketOne(), None, None, None), ScenarioQuote);
      c.marketValue.value[1] == 4000.0 && c.pl.value[1] == 0.0
  {
    var rows := SeedBucketOne();
    var c := Calculate(Table(rows, None, None, None), ScenarioQuote);
    assert rows[1] == Row(Some("NVDA"), Some("LEAP Call"), 1.0, 4000.0, Some("Dec'27 $170 Call"));
    assert !IsPricedType(rows[1].assetType);
    assert ValuedRow(rows[1], c.currentPrice.value[1], c.marketValue.value[1], c.pl.value[1], ScenarioQuote);
  }

  /** Row 2 of the scenario: META, a stock priced at its close of 500. */
  lemma SeedRow2Valued()
    ensures var c := Calculate(Table(SeedBucketOne(), None, None, None), ScenarioQuote);
      c.marketValue.value[2] == 10000.0 && c.pl.value[2] == 4000.0
  {
    var rows := SeedBucketOne();
    var c := Calculate(Table(rows, None, None, None), ScenarioQuote);
    assert rows[2] == Row(Some("META"), Some("Stock"), 20.0, 6000.0, Some(""));
    assert IsPricedType(rows[2].assetType) by { assert PricedTypes[0] == "Stock"; }
    assert ResolvePrice(Some("META"), ScenarioQuote) == 500.0;
    assert ValuedRow(rows[2], c.currentPrice.value[2], c.marketValue.value[2], c.pl.value[2], ScenarioQuote);
  }

  /** Row 3 of the scenario: VOO, an "ETF (待建)" placeholder carried at cost. */
  lemma SeedRow3Valued()
    ensures var c := Calculate(Table(SeedBucketOne(), None, None, None), ScenarioQuote);
      c.marketValue.value[3] == 0.0 && c.pl.value[3] == 0.0
  {
    var rows := SeedBucketOne();
    var c := Calculate(Table(rows, None, None, None), ScenarioQuote);
    assert rows[3] == Row(Some("VOO"), Some("ETF (待建)"), 0.0, 0.0, Some("目标 $15-20k"));
    assert !IsPricedType(rows[3].assetType) by {
      PricedTypeExamples();
      assert rows[3].assetType == Some("ETF (待建)");
    }
    assert ValuedRow(rows[3], c.currentPrice.value[3], c.marketValue.value[3], c.pl.value[3], ScenarioQuote);
  }

  /** Row 4 of the scenario: QQQ, an "ETF (待建)" placeholder carried at cost. */
  lemma SeedRow4Valued()
    ensures var c := Calculate(Table(SeedBucketOne(), None, None, None), ScenarioQuote);
      c.marketValue.value[4] == 0.0 && c.pl.value[4] == 0.0
  {
    var rows := SeedBucketOne();
    var c := Calculate(Table(rows, None, None, None), ScenarioQuote);
    assert rows[4] == Row(Some("QQQ"), Some("ETF (待建)"), 0.0, 0.0, Some("目标 $5-10k"));
    assert !IsPricedType(rows[4].assetType) by {
      PricedTypeExamples();
      assert rows[4].assetType == Some("ETF (待建)");
    }
    assert ValuedRow(rows[4], c.currentPrice.value[4], c.marketValue.value[4], c.pl.value[4], ScenarioQuote);
  }

  /** The bucket-1 total of that scenario. */
  lemma SeedBucketOneTotal()
    ensures Sum(Calculate(Table(SeedBucketOne(), None, None, None), ScenarioQuote).marketValue.value) == 34000.0
  {
    SeedBucketOneScenario();
    var mv := Calculate(Table(SeedBucketOne(), None, None, None), ScenarioQuote).marketValue.value;
    var tail4: seq<real> := [0.0];
    var tail3: seq<real> := [0.0, 0.0];
    var tail2: seq<real> := [10000.0, 0.0, 0.0];
    var tail1: seq<real> := [4000.0, 10000.0, 0.0, 0.0];
    var all: seq<real> := [20000.0, 4000.0, 10000.0, 0.0, 0.0];
    assert tail4[1..] == [] && Sum(tail4) == 0.0;
    assert tail3[1..] == tail4 && Sum(tail3) == 0.0;
    assert tail2[1..] == tail3 && Sum(tail2) == 10000.0;
    assert tail1[1..] == tail2 && Sum(tail1) == 14000.0;
    assert all[1..] == tail1 && Sum(all) == 34000.0;
    assert mv == all;
  }
}
