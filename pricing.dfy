/**
 * The price-resolution decision of the dashboard (`get_stock_price`).
 *
 * The quote library is not modelled: for one ticker it performs at most two
 * lookups, the live last price and the first daily close, and each of them
 * either yields a number or raises. A `Quote` records what the two lookups
 * would produce; a quote source maps every ticker symbol to its `Quote`.
 */
module Pricing {
  import opened Wrappers

  /** The outcomes of the two lookups for one ticker; `None` means the lookup raised.
      A live quote that lacks a last price is `Some(0.0)`, the default the lookup supplies. */
  datatype Quote = Quote(lastPrice: Option<real>, firstClose: Option<real>)

  /** How the guarded block ends: with a price, or by raising. */
  datatype Attempt = Returned(price: real) | Raised

  /** The ticker cells for which no lookup is made: missing, empty, or the "N/A" placeholder. */
  predicate IsBlank(ticker: Option<string>)
  {
    ticker == None || ticker == Some("") || ticker == Some("N/A")
  }

  /** The guarded block: take the live price; if it is zero, take the first daily close. */
  function TryLookup(q: Quote): Attempt
  {
    match q.lastPrice
    case None => Raised
    case Some(live) =>
      if live != 0.0 then Returned(live)
      else
        match q.firstClose
        case None => Raised
        case Some(close) => Returned(close)
  }

  /** The price used for a ticker: zero for a blank ticker, the guarded lookup
      otherwise, and zero whenever the guarded lookup raised. */
  function ResolvePrice(ticker: Option<string>, source: string -> Quote): (r: real)
    ensures IsBlank(ticker) ==> r == 0.0
    ensures r != 0.0 ==> !IsBlank(ticker) && TryLookup(source(ticker.value)) == Returned(r)
  {
    if IsBlank(ticker) then 0.0
    else
      match TryLookup(source(ticker.value))
      case Returned(p) => p
      case Raised => 0.0
  }

  /** A blank ticker resolves to zero whatever the quote source says, so the
      source is never consulted for it. */
  lemma BlankTickerNeverLooksUp(ticker: Option<string>, s1: string -> Quote, s2: string -> Quote)
    requires IsBlank(ticker)
    ensures ResolvePrice(ticker, s1) == 0.0
    ensures ResolvePrice(ticker, s1) == ResolvePrice(ticker, s2)
  {
  }

  /** For any other ticker, the price is decided by the ticker's own quote only. */
  lemma PriceDependsOnlyOnOwnQuote(ticker: Option<string>, s1: string -> Quote, s2: string -> Quote)
    requires ticker.Some? ==> s1(ticker.value) == s2(ticker.value)
    ensures ResolvePrice(ticker, s1) == ResolvePrice(ticker, s2)
  {
  }

  /** The full case table for a non-blank ticker: a failed live lookup gives zero,
      a nonzero live price is returned unchanged, a zero live price is replaced by
      the first daily close, and a failed close lookup gives zero. */
  lemma ResolvePriceCases(ticker: Option<string>, source: string -> Quote)
    requires !IsBlank(ticker)
    ensures var q := source(ticker.value);
      var p := ResolvePrice(ticker, source);
      && (q.lastPrice.None? ==> p == 0.0)
      && (q.lastPrice.Some? && q.lastPrice.value != 0.0 ==> p == q.lastPrice.value)
      && (q.lastPrice == Some(0.0) && q.firstClose.Some? ==> p == q.firstClose.value)
      && (q.lastPrice == Some(0.0) && q.firstClose.None? ==> p == 0.0)
  {
  }

  /** Zero comes back exactly when the ticker is blank, a lookup raised, or both
      the live price and the fallback close are zero. */
  lemma ZeroPriceExactly(ticker: Option<string>, source: string -> Quote)
    ensures ResolvePrice(ticker, source) == 0.0 <==>
      || IsBlank(ticker)
      || source(ticker.value).lastPrice.None?
      || (source(ticker.value).lastPrice == Some(0.0)
          && (source(ticker.value).firstClose.None? || source(ticker.value).firstClose == Some(0.0)))
  {
  }
}
