/** The portfolio metrics aggregator, `PortfolioDataService.calculatePortfolioMetrics`
    (app.js): per-platform values, their total, the MSFT concentration and the
    diversification score, computed from the platforms and a quote table. */
module Metrics {
  import opened PortfolioModel

  /** The employer stock is always the literal `'MSFT'`; the settings field
      `specialConsiderations.employerStock` is never consulted. */
  const EmployerSymbol: string := "MSFT"

  /** Price used for ESPP and RSU shares when the MSFT quote is missing or zero. */
  const MsftFallbackPrice: real := 425.50

  /** The label the 401k account contributes to the diversification set. */
  const RetirementLabel: string := "401K"

  // ---------------------------------------------------------------------------
  // Pricing

  /** `prices[symbol] || fallback`: JavaScript treats a missing quote and a zero
      quote alike, as falsy, so the result is a non-zero quote from the table or
      the fallback. */
  function Quote(prices: PriceMap, symbol: string, fallback: real): (r: real)
    ensures symbol in prices && prices[symbol] != 0.0 ==> r == prices[symbol]
    ensures symbol !in prices || prices[symbol] == 0.0 ==> r == fallback
    ensures r == 0.0 ==> fallback == 0.0
  {
    if symbol in prices && prices[symbol] != 0.0 then prices[symbol] else fallback
  }

  /** Value of one brokerage holding, falling back to its cost basis. */
  function HoldingValue(h: Holding, prices: PriceMap): real
  {
    h.shares * Quote(prices, h.symbol, h.avgCost)
  }

  /** Sum of the holding values, accumulated front to back as the `forEach` does. */
  function HoldingsValue(hs: seq<Holding>, prices: PriceMap): real
    decreases |hs|
  {
    if hs == [] then 0.0
    else HoldingsValue(hs[..|hs| - 1], prices) + HoldingValue(hs[|hs| - 1], prices)
  }

  /** The part of `HoldingsValue` that comes from holdings whose symbol is MSFT. */
  function MsftHoldingsValue(hs: seq<Holding>, prices: PriceMap): real
    decreases |hs|
  {
    if hs == [] then 0.0
    else MsftHoldingsValue(hs[..|hs| - 1], prices)
         + (if hs[|hs| - 1].symbol == EmployerSymbol then HoldingValue(hs[|hs| - 1], prices) else 0.0)
  }

  /** `prices.MSFT || 425.50`, the price of every ESPP and RSU share: never zero. */
  function MsftPrice(prices: PriceMap): (r: real)
    ensures r != 0.0
    ensures r == MsftFallbackPrice || (EmployerSymbol in prices && r == prices[EmployerSymbol])
    ensures EmployerSymbol in prices && prices[EmployerSymbol] != 0.0 ==> r == prices[EmployerSymbol]
  {
    Quote(prices, EmployerSymbol, MsftFallbackPrice)
  }

  /** The four platform values. The 401k is valued at its balance, and an empty
      brokerage at its cash; `EquityPlatformsZeroIffNoShares` adds that the ESPP
      and RSU platforms are worth nothing exactly when they hold no shares. */
  function PlatformBreakdown(p: Platforms, prices: PriceMap): (r: Breakdown)
    ensures p.robinhood.holdings == [] ==> r.robinhood == p.robinhood.cash
    ensures p.fidelity.msftESPP.shares == 0.0 ==> r.fidelity == 0.0
    ensures r.retirement401k == p.retirement401k.totalBalance
    ensures p.msftRSU.shares == 0.0 ==> r.msftRSU == 0.0
  {
    Breakdown(
      p.robinhood.cash + HoldingsValue(p.robinhood.holdings, prices),
      p.fidelity.msftESPP.shares * MsftPrice(prices),
      p.retirement401k.totalBalance,
      p.msftRSU.shares * MsftPrice(prices))
  }

  function Total(b: Breakdown): real
  {
    b.robinhood + b.fidelity + b.retirement401k + b.msftRSU
  }

  /** MSFT exposure: brokerage MSFT holdings plus the whole ESPP and RSU
      platform values. */
  function MsftExposure(p: Platforms, prices: PriceMap): (r: real)
    ensures var b := PlatformBreakdown(p, prices);
      r == MsftHoldingsValue(p.robinhood.holdings, prices) + b.fidelity + b.msftRSU
  {
    MsftHoldingsValue(p.robinhood.holdings, prices)
    + p.fidelity.msftESPP.shares * MsftPrice(prices)
    + p.msftRSU.shares * MsftPrice(prices)
  }

  /** Concentration percentage, guarded against a total that is not positive;
      `ConcentrationIsPercentage` shows it lies in [0, 100]. */
  function Concentration(msft: real, total: real): (r: real)
    ensures total <= 0.0 ==> r == 0.0
  {
    if total > 0.0 then msft / total * 100.0 else 0.0
  }

  // ---------------------------------------------------------------------------
  // Diversification

  function Symbols(hs: seq<Holding>): (r: seq<string>)
    ensures |r| == |hs|
    ensures forall i :: 0 <= i < |hs| ==> r[i] == hs[i].symbol
  {
    seq(|hs|, i requires 0 <= i < |hs| => hs[i].symbol)
  }

  /** The array spread into `new Set(...)`: every brokerage symbol (whatever its
      share count), `'MSFT'` for a positive ESPP lot, `'MSFT'` for a positive RSU
      grant, `'401K'` for a positive 401k balance. */
  function LabelList(p: Platforms): seq<string>
  {
    Symbols(p.robinhood.holdings)
    + (if p.fidelity.msftESPP.shares > 0.0 then [EmployerSymbol] else [])
    + (if p.msftRSU.shares > 0.0 then [EmployerSymbol] else [])
    + (if p.retirement401k.totalBalance > 0.0 then [RetirementLabel] else [])
  }

  /** The JavaScript `Set` built from `LabelList`: duplicates collapse. */
  function ExposureLabels(p: Platforms): set<string>
  {
    set l | l in LabelList(p)
  }

  /** `Math.min(10, Math.max(1, size * 1.5))`. */
  function DiversificationScore(labelCount: nat): (r: real)
    ensures 1.0 <= r <= 10.0
    ensures r == 1.0 <==> labelCount == 0
    ensures r == 10.0 <==> labelCount >= 7
    ensures 1 <= labelCount <= 6 ==> r == 1.5 * labelCount as real
  {
    var raw := 1.5 * labelCount as real;
    var atLeastOne := if raw > 1.0 then raw else 1.0;
    if atLeastOne < 10.0 then atLeastOne else 10.0
  }

  /** `(Math.random() - 0.5) * 2`, with the random draw passed in. */
  function DailyChange(draw: real): (r: real)
    ensures 0.0 <= draw < 1.0 ==> -1.0 <= r < 1.0
  {
    (draw - 0.5) * 2.0
  }

  // ---------------------------------------------------------------------------
  // The computation

  /** The symbols `getPrices` is asked for: every brokerage symbol and MSFT. */
  function FetchedSymbols(p: Platforms): (r: set<string>)
    ensures EmployerSymbol in r
    ensures forall i :: 0 <= i < |p.robinhood.holdings| ==> p.robinhood.holdings[i].symbol in r
    ensures forall s :: s in r ==> s == EmployerSymbol || s in Symbols(p.robinhood.holdings)
  {
    var s := Symbols(p.robinhood.holdings) + [EmployerSymbol];
    assert forall i :: 0 <= i < |p.robinhood.holdings| ==> s[i] in s;
    assert s[|s| - 1] in s;
    set l | l in s
  }

  /** The table `getPrices` answers with, taken from the quote source `prices`:
      its entries for the fetched symbols, and no other. */
  function FetchedQuotes(p: Platforms, prices: PriceMap): (r: PriceMap)
    ensures forall s :: s in r ==> s in FetchedSymbols(p) && s in prices && r[s] == prices[s]
    ensures forall s :: s in FetchedSymbols(p) && s in prices ==> s in r
  {
    map s | s in prices && s in FetchedSymbols(p) :: prices[s]
  }

  /** The `calculated` record after the computation: the previous record with
      the fields the spread overwrites replaced, every other field kept. */
  function Recalculated(c: Calculated, p: Platforms, prices: PriceMap, now: string, draw: real): (r: Calculated)
    ensures r.totalValue <= 0.0 ==> r.msftConcentration == 0.0
    ensures 1.0 <= r.diversificationScore <= 10.0
    ensures r.otherFields == c.otherFields
  {
    var b := PlatformBreakdown(p, prices);
    var msft := MsftExposure(p, prices);
    c.(totalValue := Total(b),
       msftConcentration := Concentration(msft, Total(b)),
       diversificationScore := DiversificationScore(|ExposureLabels(p)|),
       platformBreakdown := Some(b),
       msftValue := Some(msft),
       lastUpdated := Some(now),
       dailyChange := DailyChange(draw),
       pricesUsed := Some(FetchedQuotes(p, prices)))
  }

  /** The `forEach` over the brokerage holdings: the brokerage value starts at
      the cash balance, and every holding adds its shares at its quote, or at its
      cost basis when the quote is missing or zero; MSFT holdings also add to the
      MSFT exposure. */
  method ValueBrokerage(cash: real, hs: seq<Holding>, quotes: PriceMap) returns (robinhoodValue: real, msftValue: real)
    ensures robinhoodValue == cash + HoldingsValue(hs, quotes)
    ensures msftValue == MsftHoldingsValue(hs, quotes)
  {
    robinhoodValue, msftValue := cash, 0.0;
    var i := 0;
    while i < |hs|
      invariant 0 <= i <= |hs|
      invariant robinhoodValue == cash + HoldingsValue(hs[..i], quotes)
      invariant msftValue == MsftHoldingsValue(hs[..i], quotes)
    {
      var holding := hs[i];
      var currentPrice := if holding.symbol in quotes && quotes[holding.symbol] != 0.0
                          then quotes[holding.symbol] else holding.avgCost;
      var value := holding.shares * currentPrice;
      robinhoodValue := robinhoodValue + value;
      if holding.symbol == EmployerSymbol {
        msftValue := msftValue + value;
      }
      assert hs[..i + 1][..i] == hs[..i];
      i := i + 1;
    }
    assert hs[..i] == hs;
  }

  /** The body of `calculatePortfolioMetrics`: the quote request for the
      brokerage symbols and MSFT, the `forEach` over the brokerage holdings with
      its accumulators, then the ESPP, 401k and RSU platforms. */
  method ComputeMetrics(pd: PortfolioData, prices: PriceMap, now: string, draw: real) returns (c: Calculated)
    ensures c == Recalculated(pd.calculated, pd.platforms, prices, now, draw)
    ensures c.platformBreakdown.Some?
    ensures var b := c.platformBreakdown.value;
      c.totalValue == b.robinhood + b.fidelity + b.retirement401k + b.msftRSU
      && b.retirement401k == pd.platforms.retirement401k.totalBalance
    ensures c.totalValue <= 0.0 ==> c.msftConcentration == 0.0
    ensures c.otherFields == pd.calculated.otherFields
  {
    var p := pd.platforms;
    var hs := p.robinhood.holdings;
    var totalValue, msftValue := 0.0, 0.0;

    var quotes := FetchedQuotes(p, prices);
    FetchedQuotesPriceAlike(p, prices);

    var robinhoodValue, brokerageMsft := ValueBrokerage(p.robinhood.cash, hs, quotes);
    msftValue := msftValue + brokerageMsft;
    totalValue := totalValue + robinhoodValue;

    var msftPrice := if EmployerSymbol in quotes && quotes[EmployerSymbol] != 0.0
                     then quotes[EmployerSymbol] else MsftFallbackPrice;
    var esppValue := p.fidelity.msftESPP.shares * msftPrice;
    msftValue := msftValue + esppValue;
    totalValue := totalValue + esppValue;

    var balance := p.retirement401k.totalBalance;
    totalValue := totalValue + balance;

    var rsuValue := p.msftRSU.shares * msftPrice;
    msftValue := msftValue + rsuValue;
    totalValue := totalValue + rsuValue;

    var breakdown := Breakdown(robinhoodValue, esppValue, balance, rsuValue);
    assert msftPrice == MsftPrice(quotes);
    assert robinhoodValue == p.robinhood.cash + HoldingsValue(hs, prices);
    assert breakdown == PlatformBreakdown(p, prices);
    assert msftValue == MsftExposure(p, prices);
    c := pd.calculated.(
      totalValue := totalValue,
      msftConcentration := if totalValue > 0.0 then (msftValue / totalValue) * 100.0 else 0.0,
      diversificationScore := DiversificationScore(|ExposureLabels(p)|),
      platformBreakdown := Some(breakdown),
      msftValue := Some(msftValue),
      lastUpdated := Some(now),
      dailyChange := (draw - 0.5) * 2.0,
      pricesUsed := Some(quotes));
  }

  // ---------------------------------------------------------------------------
  // Properties of the computation

  /** Every input the source expects to be a non-negative amount is one. */
  ghost predicate NonNegativeInputs(p: Platforms, prices: PriceMap)
  {
    && p.robinhood.cash >= 0.0
    && (forall i :: 0 <= i < |p.robinhood.holdings| ==>
          p.robinhood.holdings[i].shares >= 0.0 && p.robinhood.holdings[i].avgCost >= 0.0)
    && p.fidelity.msftESPP.shares >= 0.0
    && p.retirement401k.totalBalance >= 0.0
    && p.msftRSU.shares >= 0.0
    && (forall s :: s in prices ==> prices[s] >= 0.0)
  }

  /** With non-negative holdings and quotes, the MSFT part of the brokerage sum
      is non-negative and no larger than the whole sum. */
  lemma {:induction false} MsftHoldingsWithinHoldings(hs: seq<Holding>, prices: PriceMap)
    requires forall i :: 0 <= i < |hs| ==> hs[i].shares >= 0.0 && hs[i].avgCost >= 0.0
    requires forall s :: s in prices ==> prices[s] >= 0.0
    ensures 0.0 <= MsftHoldingsValue(hs, prices) <= HoldingsValue(hs, prices)
  {
    if hs != [] {
      var last := hs[|hs| - 1];
      MsftHoldingsWithinHoldings(hs[..|hs| - 1], prices);
      var q := Quote(prices, last.symbol, last.avgCost);
      assert q >= 0.0;
      assert HoldingValue(last, prices) == last.shares * q;
      assert last.shares * q >= 0.0;
    }
  }

  /** With non-negative cash, shares, quotes and balance, the MSFT concentration
      is a percentage: it lies in [0, 100]. */
  lemma ConcentrationIsPercentage(c: Calculated, p: Platforms, prices: PriceMap, now: string, draw: real)
    requires NonNegativeInputs(p, prices)
    ensures var r := Recalculated(c, p, prices, now, draw);
      0.0 <= r.msftConcentration <= 100.0
  {
    MsftHoldingsWithinHoldings(p.robinhood.holdings, prices);
    var m := MsftPrice(prices);
    assert m >= 0.0;
    var espp := p.fidelity.msftESPP.shares * m;
    var rsu := p.msftRSU.shares * m;
    assert espp >= 0.0 && rsu >= 0.0;
    var b := PlatformBreakdown(p, prices);
    var msft := MsftExposure(p, prices);
    assert 0.0 <= msft <= Total(b);
    if Total(b) > 0.0 {
      RatioIsPercentage(msft, Total(b));
    }
  }

  lemma RatioIsPercentage(part: real, whole: real)
    ensures 0.0 <= part <= whole && whole > 0.0 ==> 0.0 <= part / whole * 100.0 <= 100.0
  {
    if 0.0 <= part <= whole && whole > 0.0 {
      assert part / whole <= 1.0 by {
        assert part / whole * whole == part;
      }
    }
  }

  /** A portfolio worth nothing has concentration exactly 0. */
  lemma ZeroTotalHasZeroConcentration(c: Calculated, p: Platforms, prices: PriceMap, now: string, draw: real)
    requires Total(PlatformBreakdown(p, prices)) == 0.0
    ensures Recalculated(c, p, prices, now, draw).msftConcentration == 0.0
    ensures Recalculated(c, p, prices, now, draw).totalValue == 0.0
  {
  }

  /** A holding with no usable quote is valued at its cost basis; appending one
      to the brokerage adds `shares * avgCost` to the brokerage value and to the total. */
  lemma MissingQuoteUsesCostBasis(p: Platforms, h: Holding, prices: PriceMap)
    requires h.symbol !in prices || prices[h.symbol] == 0.0
    ensures var p' := p.(robinhood := p.robinhood.(holdings := p.robinhood.holdings + [h]));
      && PlatformBreakdown(p', prices).robinhood == PlatformBreakdown(p, prices).robinhood + h.shares * h.avgCost
      && Total(PlatformBreakdown(p', prices)) == Total(PlatformBreakdown(p, prices)) + h.shares * h.avgCost
  {
    var hs := p.robinhood.holdings;
    assert (hs + [h])[..|hs + [h]| - 1] == hs;
  }

  /** A holding with a present, non-zero quote is valued at that quote, whatever
      its cost basis; appending one to the brokerage adds `shares * quote` to the
      brokerage value and to the total. */
  lemma QuotedHoldingUsesQuote(p: Platforms, h: Holding, prices: PriceMap)
    requires h.symbol in prices && prices[h.symbol] != 0.0
    ensures var p' := p.(robinhood := p.robinhood.(holdings := p.robinhood.holdings + [h]));
      && PlatformBreakdown(p', prices).robinhood == PlatformBreakdown(p, prices).robinhood + h.shares * prices[h.symbol]
      && Total(PlatformBreakdown(p', prices)) == Total(PlatformBreakdown(p, prices)) + h.shares * prices[h.symbol]
  {
    var hs := p.robinhood.holdings;
    assert (hs + [h])[..|hs + [h]| - 1] == hs;
  }

  /** ESPP and RSU shares are priced at the MSFT quote, or 425.50 when that quote
      is missing or zero; their own `avgCost` never enters the value. */
  lemma EquityCompensationPricing(p: Platforms, prices: PriceMap)
    ensures var b := PlatformBreakdown(p, prices);
      && (EmployerSymbol in prices && prices[EmployerSymbol] != 0.0 ==>
            b.fidelity == p.fidelity.msftESPP.shares * prices[EmployerSymbol]
            && b.msftRSU == p.msftRSU.shares * prices[EmployerSymbol])
      && (EmployerSymbol !in prices || prices[EmployerSymbol] == 0.0 ==>
            b.fidelity == p.fidelity.msftESPP.shares * 425.50
            && b.msftRSU == p.msftRSU.shares * 425.50)
  {
  }

  /** The MSFT price is never zero, so the ESPP and RSU platforms are worth
      nothing exactly when they hold no shares. */
  lemma EquityPlatformsZeroIffNoShares(p: Platforms, prices: PriceMap)
    ensures PlatformBreakdown(p, prices).fidelity == 0.0 <==> p.fidelity.msftESPP.shares == 0.0
    ensures PlatformBreakdown(p, prices).msftRSU == 0.0 <==> p.msftRSU.shares == 0.0
  {
    var m := MsftPrice(prices);
    assert m != 0.0;
    if p.fidelity.msftESPP.shares * m == 0.0 {
      assert p.fidelity.msftESPP.shares == p.fidelity.msftESPP.shares * m / m;
    }
    if p.msftRSU.shares * m == 0.0 {
      assert p.msftRSU.shares == p.msftRSU.shares * m / m;
    }
  }

  /** Fields the computation never reads: the 401k employer match and funds, the
      Fidelity holdings list, and the ESPP and RSU cost bases. */
  lemma IgnoredFieldsDoNotMatter(c: Calculated, p: Platforms, q: Platforms, prices: PriceMap, now: string, draw: real)
    requires q.robinhood == p.robinhood
    requires q.fidelity.msftESPP.shares == p.fidelity.msftESPP.shares
    requires q.retirement401k.totalBalance == p.retirement401k.totalBalance
    requires q.msftRSU.shares == p.msftRSU.shares
    ensures Recalculated(c, q, prices, now, draw) == Recalculated(c, p, prices, now, draw)
  {
    assert PlatformBreakdown(q, prices) == PlatformBreakdown(p, prices);
    assert MsftExposure(q, prices) == MsftExposure(p, prices);
    assert LabelList(q) == LabelList(p);
    assert ExposureLabels(q) == ExposureLabels(p);
  }

  /** Two quote tables give the same price for `s`. */
  ghost predicate SameQuote(prices: PriceMap, prices': PriceMap, s: string)
  {
    (s in prices && prices[s] != 0.0) == (s in prices' && prices'[s] != 0.0)
    && (s in prices && prices[s] != 0.0 ==> prices[s] == prices'[s])
  }

  lemma {:induction false} HoldingsValueDependsOnQuotedSymbols(hs: seq<Holding>, prices: PriceMap, prices': PriceMap)
    requires forall i :: 0 <= i < |hs| ==> SameQuote(prices, prices', hs[i].symbol)
    ensures HoldingsValue(hs, prices) == HoldingsValue(hs, prices')
    ensures MsftHoldingsValue(hs, prices) == MsftHoldingsValue(hs, prices')
  {
    if hs != [] {
      HoldingsValueDependsOnQuotedSymbols(hs[..|hs| - 1], prices, prices');
      assert SameQuote(prices, prices', hs[|hs| - 1].symbol);
    }
  }

  /** Only the quotes for the brokerage symbols and for MSFT matter, which is why
      the source fetches exactly those (app.js:137-141); the quotes stored in
      `pricesUsed` are the only other difference. */
  lemma MetricsDependOnlyOnFetchedQuotes(c: Calculated, p: Platforms, prices: PriceMap, prices': PriceMap, now: string, draw: real)
    requires forall i :: 0 <= i < |p.robinhood.holdings| ==> SameQuote(prices, prices', p.robinhood.holdings[i].symbol)
    requires SameQuote(prices, prices', EmployerSymbol)
    ensures Recalculated(c, p, prices, now, draw)
      == Recalculated(c, p, prices', now, draw).(pricesUsed := Some(FetchedQuotes(p, prices)))
  {
    HoldingsValueDependsOnQuotedSymbols(p.robinhood.holdings, prices, prices');
    assert MsftPrice(prices) == MsftPrice(prices');
    assert PlatformBreakdown(p, prices) == PlatformBreakdown(p, prices');
    assert MsftExposure(p, prices) == MsftExposure(p, prices');
  }

  /** The table `getPrices` answers with quotes every fetched symbol as the
      source does. */
  lemma QuotesAgreeOnFetchedSymbols(p: Platforms, prices: PriceMap)
    ensures forall i :: 0 <= i < |p.robinhood.holdings| ==>
      SameQuote(FetchedQuotes(p, prices), prices, p.robinhood.holdings[i].symbol)
    ensures SameQuote(FetchedQuotes(p, prices), prices, EmployerSymbol)
  {
  }

  /** The brokerage sums and the MSFT price come out the same from the answered
      table as from the whole quote source. */
  lemma FetchedQuotesPriceAlike(p: Platforms, prices: PriceMap)
    ensures HoldingsValue(p.robinhood.holdings, FetchedQuotes(p, prices)) == HoldingsValue(p.robinhood.holdings, prices)
    ensures MsftHoldingsValue(p.robinhood.holdings, FetchedQuotes(p, prices)) == MsftHoldingsValue(p.robinhood.holdings, prices)
    ensures MsftPrice(FetchedQuotes(p, prices)) == MsftPrice(prices)
  {
    QuotesAgreeOnFetchedSymbols(p, prices);
    HoldingsValueDependsOnQuotedSymbols(p.robinhood.holdings, FetchedQuotes(p, prices), prices);
  }

  /** Computing from the answered table alone gives the same record as computing
      from the whole quote source: nothing outside the request is ever read. */
  lemma FetchedQuotesSuffice(c: Calculated, p: Platforms, prices: PriceMap, now: string, draw: real)
    ensures Recalculated(c, p, FetchedQuotes(p, prices), now, draw) == Recalculated(c, p, prices, now, draw)
  {
    var q := FetchedQuotes(p, prices);
    QuotesAgreeOnFetchedSymbols(p, prices);
    assert FetchedQuotes(p, q) == q;
    MetricsDependOnlyOnFetchedQuotes(c, p, q, prices, now, draw);
  }

  /** Membership in the label set, both directions. */
  lemma ExposureLabelsMembership(p: Platforms, l: string)
    ensures l in ExposureLabels(p) <==>
      (exists i :: 0 <= i < |p.robinhood.holdings| && p.robinhood.holdings[i].symbol == l)
      || (l == EmployerSymbol && (p.fidelity.msftESPP.shares > 0.0 || p.msftRSU.shares > 0.0))
      || (l == RetirementLabel && p.retirement401k.totalBalance > 0.0)
  {
    var hs := p.robinhood.holdings;
    if exists i :: 0 <= i < |hs| && hs[i].symbol == l {
      var i :| 0 <= i < |hs| && hs[i].symbol == l;
      assert LabelList(p)[i] == l;
    }
  }

  lemma {:induction false} DistinctCountAtMostLength(s: seq<string>)
    ensures |set l | l in s| <= |s|
  {
    if s != [] {
      DistinctCountAtMostLength(s[1..]);
      assert (set l | l in s) == {s[0]} + (set l | l in s[1..]);
    }
  }

  /** At most one label per brokerage holding, plus MSFT and 401K: the ESPP and
      RSU entries collapse into a single MSFT label. */
  lemma LabelCountBound(p: Platforms)
    ensures |ExposureLabels(p)| <= |p.robinhood.holdings| + 2
  {
    var hs := p.robinhood.holdings;
    var bound := (set l | l in Symbols(hs)) + {EmployerSymbol, RetirementLabel};
    DistinctCountAtMostLength(Symbols(hs));
    forall l | l in ExposureLabels(p)
      ensures l in bound
    {
      ExposureLabelsMembership(p, l);
      if exists i :: 0 <= i < |hs| && hs[i].symbol == l {
        var i :| 0 <= i < |hs| && hs[i].symbol == l;
        assert Symbols(hs)[i] == l;
      }
    }
    SubsetCardinality(ExposureLabels(p), bound);
  }

  lemma {:induction false} SubsetCardinality(a: set<string>, b: set<string>)
    requires a <= b
    ensures |a| <= |b|
    decreases |b|
  {
    if a != {} {
      var x :| x in a;
      SubsetCardinality(a - {x}, b - {x});
    }
  }

  /** MSFT counts once however many platforms hold it: with brokerage MSFT shares
      the ESPP and RSU share counts do not change the label set, and with a
      positive ESPP lot the RSU grant does not change it either. */
  lemma MsftCountedOnce(p: Platforms, esppShares: real, rsuShares: real)
    ensures (exists i :: 0 <= i < |p.robinhood.holdings| && p.robinhood.holdings[i].symbol == EmployerSymbol) ==>
      ExposureLabels(p.(fidelity := p.fidelity.(msftESPP := p.fidelity.msftESPP.(shares := esppShares)),
                        msftRSU := p.msftRSU.(shares := rsuShares)))
      == ExposureLabels(p)
    ensures p.fidelity.msftESPP.shares > 0.0 ==>
      ExposureLabels(p.(msftRSU := p.msftRSU.(shares := rsuShares))) == ExposureLabels(p)
  {
    var q := p.(fidelity := p.fidelity.(msftESPP := p.fidelity.msftESPP.(shares := esppShares)),
                msftRSU := p.msftRSU.(shares := rsuShares));
    var r := p.(msftRSU := p.msftRSU.(shares := rsuShares));
    forall l | true
      ensures (exists i :: 0 <= i < |p.robinhood.holdings| && p.robinhood.holdings[i].symbol == EmployerSymbol) ==>
                (l in ExposureLabels(q) <==> l in ExposureLabels(p))
      ensures p.fidelity.msftESPP.shares > 0.0 ==> (l in ExposureLabels(r) <==> l in ExposureLabels(p))
    {
      ExposureLabelsMembership(p, l);
      ExposureLabelsMembership(q, l);
      ExposureLabelsMembership(r, l);
    }
  }

  /** A brokerage holding with zero shares adds nothing to any value but its
      symbol still joins the label set. */
  lemma ZeroShareHoldingStillCounts(c: Calculated, p: Platforms, h: Holding, prices: PriceMap, now: string, draw: real)
    requires h.shares == 0.0
    ensures var p' := p.(robinhood := p.robinhood.(holdings := p.robinhood.holdings + [h]));
      && PlatformBreakdown(p', prices) == PlatformBreakdown(p, prices)
      && MsftExposure(p', prices) == MsftExposure(p, prices)
      && ExposureLabels(p') == ExposureLabels(p) + {h.symbol}
  {
    var hs := p.robinhood.holdings;
    var p' := p.(robinhood := p.robinhood.(holdings := hs + [h]));
    assert (hs + [h])[..|hs + [h]| - 1] == hs;
    forall l | true
      ensures l in ExposureLabels(p') <==> l in ExposureLabels(p) + {h.symbol}
    {
      ExposureLabelsMembership(p, l);
      ExposureLabelsMembership(p', l);
      if l == h.symbol {
        assert p'.robinhood.holdings[|hs|].symbol == l;
      }
      if exists i :: 0 <= i < |hs| && hs[i].symbol == l {
        var i :| 0 <= i < |hs| && hs[i].symbol == l;
        assert p'.robinhood.holdings[i].symbol == l;
      }
    }
  }

  /** The score is 1 exactly when nothing is exposed: no brokerage holding at
      all, no ESPP or RSU shares and no 401k balance. */
  lemma MinimumScoreIffNoExposure(p: Platforms)
    ensures DiversificationScore(|ExposureLabels(p)|) == 1.0 <==>
      p.robinhood.holdings == [] && p.fidelity.msftESPP.shares <= 0.0
      && p.msftRSU.shares <= 0.0 && p.retirement401k.totalBalance <= 0.0
  {
    var hs := p.robinhood.holdings;
    if hs != [] {
      assert LabelList(p)[0] in ExposureLabels(p);
    } else if p.fidelity.msftESPP.shares > 0.0 || p.msftRSU.shares > 0.0 {
      ExposureLabelsMembership(p, EmployerSymbol);
    } else if p.retirement401k.totalBalance > 0.0 {
      ExposureLabelsMembership(p, RetirementLabel);
    } else {
      assert LabelList(p) == [];
    }
  }

  // ---------------------------------------------------------------------------
  // Worked examples

  lemma PrefixStep(hs: seq<Holding>, prices: PriceMap, k: nat)
    requires 0 < k <= |hs|
    ensures HoldingsValue(hs[..k], prices) == HoldingsValue(hs[..k - 1], prices) + HoldingValue(hs[k - 1], prices)
    ensures MsftHoldingsValue(hs[..k], prices) == MsftHoldingsValue(hs[..k - 1], prices)
      + (if hs[k - 1].symbol == EmployerSymbol then HoldingValue(hs[k - 1], prices) else 0.0)
  {
    assert hs[..k][..k - 1] == hs[..k - 1];
  }

  /** Brokerage cash 2500 and 5 VOO quoted at 600, no ESPP or RSU shares and a
      25000 balance in the 401k: total 30500, no MSFT exposure, two labels. */
  lemma SingleFundExample(c: Calculated, now: string, draw: real)
    ensures var p := Platforms(
        Brokerage(2500.0, [Holding("VOO", 5.0, 583.34)]),
        Fidelity(EsppLot(0.0, 380.0), []),
        Retirement(25000.0, 0.0, []),
        RsuGrant(0.0, 0.0));
      var r := Recalculated(c, p, map["VOO" := 600.0], now, draw);
      && r.totalValue == 30500.0
      && r.platformBreakdown == Some(Breakdown(5500.0, 0.0, 25000.0, 0.0))
      && r.msftConcentration == 0.0
      && r.diversificationScore == 3.0
  {
    var p := Platforms(
        Brokerage(2500.0, [Holding("VOO", 5.0, 583.34)]),
        Fidelity(EsppLot(0.0, 380.0), []),
        Retirement(25000.0, 0.0, []),
        RsuGrant(0.0, 0.0));
    var prices := map["VOO" := 600.0];
    assert p.robinhood.holdings[..0] == [];
    assert LabelList(p) == ["VOO", "401K"];
    assert "VOO" != "401K" by { assert "VOO"[1] != "401K"[1]; }
    assert ExposureLabels(p) == {"VOO", "401K"};
  }

  /** The market-data service's base prices for the demo symbols. Each equals
      the demo holding's `avgCost`, so the demo examples below cannot tell the
      quote from the cost-basis fallback; `SingleFundExample` and
      `QuotedHoldingUsesQuote` show the quote being used. */
  function DemoQuotes(): PriceMap
  {
    map["MSFT" := 425.50, "VOO" := 583.34, "NVDA" := 172.84, "ARKK" := 77.00, "GOOGL" := 194.38]
  }

  lemma DemoBrokerageSums()
    ensures HoldingsValue(DemoPortfolio().platforms.robinhood.holdings, DemoQuotes()) == 7383.33
    ensures MsftHoldingsValue(DemoPortfolio().platforms.robinhood.holdings, DemoQuotes()) == 3404.0
  {
    var hs := DemoPortfolio().platforms.robinhood.holdings;
    var prices := DemoQuotes();
    PrefixStep(hs, prices, 1);
    PrefixStep(hs, prices, 2);
    PrefixStep(hs, prices, 3);
    PrefixStep(hs, prices, 4);
    PrefixStep(hs, prices, 5);
    assert hs[..0] == [] && hs[..5] == hs;
  }

  /** The demo label list has eight entries and six distinct labels. */
  lemma DemoLabelSet()
    ensures ExposureLabels(DemoPortfolio().platforms) == {"VOO", "NVDA", "ARKK", "GOOGL", "MSFT", "401K"}
  {
    assert LabelList(DemoPortfolio().platforms) == ["VOO", "NVDA", "ARKK", "GOOGL", "MSFT", "MSFT", "MSFT", "401K"];
  }

  lemma DemoLabelsDistinct()
    ensures |{"VOO", "NVDA", "ARKK", "GOOGL", "MSFT", "401K"}| == 6
  {
    var s: set<string> := {"401K"};
    assert "MSFT"[0] != "401K"[0];
    s := s + {"MSFT"};
    assert |s| == 2;
    assert "GOOGL" !in s by { assert |"GOOGL"| == 5; }
    s := s + {"GOOGL"};
    assert |s| == 3;
    assert "ARKK"[0] != "MSFT"[0] && "ARKK"[0] != "401K"[0];
    s := s + {"ARKK"};
    assert |s| == 4;
    assert "NVDA"[0] != "ARKK"[0] && "NVDA"[0] != "MSFT"[0] && "NVDA"[0] != "401K"[0];
    s := s + {"NVDA"};
    assert |s| == 5;
    assert "VOO" !in s by { assert |"VOO"| == 3; }
    s := s + {"VOO"};
    assert s == {"VOO", "NVDA", "ARKK", "GOOGL", "MSFT", "401K"};
  }

  lemma DemoLabelCount()
    ensures |ExposureLabels(DemoPortfolio().platforms)| == 6
  {
    DemoLabelSet();
    DemoLabelsDistinct();
  }

  /** The demo portfolio with the market-data table's base prices: MSFT exposure
      is the 8 brokerage shares plus the 15 ESPP and 5 RSU shares at 425.50,
      and the six labels VOO, NVDA, ARKK, GOOGL, MSFT and 401K give score 9. */
  lemma DemoPortfolioExample(now: string, draw: real)
    ensures var pd := DemoPortfolio();
      var r := Recalculated(pd.calculated, pd.platforms, DemoQuotes(), now, draw);
      && r.platformBreakdown == Some(Breakdown(9883.33, 6382.5, 25000.0, 2127.5))
      && r.totalValue == 43393.33
      && r.msftValue == Some(11914.0)
      && r.msftConcentration == 11914.0 / 43393.33 * 100.0
      && r.diversificationScore == 9.0
  {
    DemoBrokerageSums();
    DemoLabelCount();
  }
}
