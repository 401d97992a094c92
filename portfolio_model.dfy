/** The portfolio record the application keeps in memory (app.js), and the
    two canned portfolios it starts from. Money amounts and share counts are
    exact reals; the browser's IEEE-754 doubles are not modelled. */
module PortfolioModel {

  datatype Option<T> = None | Some(value: T)

  /** A quote table, symbol to price per share, as the market-data service returns it. */
  type PriceMap = map<string, real>

  /** One brokerage position. */
  datatype Holding = Holding(symbol: string, shares: real, avgCost: real)

  /** The brokerage account (the `robinhood` platform). */
  datatype Brokerage = Brokerage(cash: real, holdings: seq<Holding>)

  /** The employee stock purchase plan lot held at Fidelity. */
  datatype EsppLot = EsppLot(shares: real, avgCost: real)

  /** The `fidelity` platform: the ESPP lot and a holdings list the metrics never read. */
  datatype Fidelity = Fidelity(msftESPP: EsppLot, holdings: seq<Holding>)

  datatype Fund = Fund(name: string, allocation: real)

  /** The 401k account; only `totalBalance` is ever valued. */
  datatype Retirement = Retirement(totalBalance: real, employerMatch: real, funds: seq<Fund>)

  /** The restricted stock unit grant. */
  datatype RsuGrant = RsuGrant(shares: real, avgCost: real)

  /** The four fixed platforms. */
  datatype Platforms = Platforms(
    robinhood: Brokerage,
    fidelity: Fidelity,
    retirement401k: Retirement,
    msftRSU: RsuGrant)

  datatype RiskTolerance = Conservative | Moderate | Aggressive

  datatype SpecialConsiderations = SpecialConsiderations(
    employerStock: string,
    concentrationThreshold: real,
    timelineMonths: int)

  /** The minimal portfolio has no `specialConsiderations`; hence the option. */
  datatype Settings = Settings(
    monthlyInvestment: real,
    riskTolerance: RiskTolerance,
    investmentTimeline: string,
    specialConsiderations: Option<SpecialConsiderations>)

  /** Value per platform, keyed as `platformBreakdown` is. */
  datatype Breakdown = Breakdown(robinhood: real, fidelity: real, retirement401k: real, msftRSU: real)

  /** The derived `calculated` record. `platformBreakdown` is `{}`, and `msftValue`,
      `lastUpdated` and `pricesUsed` are absent or null, until the first computation.
      `otherFields` stands for any further keys a record read from an imported
      document may carry (with their JSON text); the computation keeps them. */
  datatype Calculated = Calculated(
    totalValue: real,
    msftConcentration: real,
    diversificationScore: real,
    platformBreakdown: Option<Breakdown>,
    msftValue: Option<real>,
    dailyChange: real,
    lastUpdated: Option<string>,
    pricesUsed: Option<PriceMap>,
    otherFields: map<string, string>)

  datatype PortfolioData = PortfolioData(platforms: Platforms, settings: Settings, calculated: Calculated)

  /** The `calculated` record both canned portfolios start with. */
  const InitialCalculated: Calculated :=
    Calculated(0.0, 0.0, 0.0, None, None, 0.0, None, None, map[])

  /** `createDemoPortfolio`. */
  function DemoPortfolio(): (pd: PortfolioData)
    ensures |pd.platforms.robinhood.holdings| == 5
    ensures pd.settings.specialConsiderations.Some?
    ensures pd.calculated == InitialCalculated
  {
    PortfolioData(
      Platforms(
        Brokerage(2500.00, [
          Holding("VOO", 5.0, 583.34),
          Holding("NVDA", 2.0, 172.84),
          Holding("ARKK", 3.0, 77.00),
          Holding("GOOGL", 2.5, 194.38),
          Holding("MSFT", 8.0, 425.50)]),
        Fidelity(EsppLot(15.0, 380.00), []),
        Retirement(25000.00, 2000.00, [Fund("Target Date 2060 Fund", 100.0)]),
        RsuGrant(5.0, 425.50)),
      Settings(500.0, Moderate, "medium", Some(SpecialConsiderations("MSFT", 30.0, 24))),
      InitialCalculated)
  }

  /** `createMinimalPortfolio`, the fallback when initialisation fails. */
  function MinimalPortfolio(): (pd: PortfolioData)
    ensures pd.platforms.robinhood.holdings == []
    ensures pd.settings.specialConsiderations.None?
    ensures pd.calculated == InitialCalculated
  {
    PortfolioData(
      Platforms(
        Brokerage(1000.0, []),
        Fidelity(EsppLot(0.0, 0.0), []),
        Retirement(10000.0, 500.0, []),
        RsuGrant(0.0, 0.0)),
      Settings(500.0, Moderate, "medium", None),
      InitialCalculated)
  }
}
