/** The application's session state, the globals `portfolioData` and
    `currentStep` (app.js), and the operations that update them: the metrics
    recomputation, initialisation, the wizard's step change and finish, the
    risk slider, and export and import. The quote table, the clock reading and
    the random draw each operation would take from its environment are
    parameters. */
module Session {
  import opened PortfolioModel
  import opened Metrics
  import opened Setup

  /** The document `exportData` writes: `{ portfolioData, timestamp }`. */
  datatype ExportDocument = ExportDocument(portfolioData: Option<PortfolioData>, timestamp: string)

  /** The portfolio after the metrics computation: only `calculated` is replaced. */
  function WithMetrics(pd: PortfolioData, prices: PriceMap, now: string, draw: real): (r: PortfolioData)
    ensures r.platforms == pd.platforms && r.settings == pd.settings
    ensures r.calculated.otherFields == pd.calculated.otherFields
  {
    pd.(calculated := Recalculated(pd.calculated, pd.platforms, prices, now, draw))
  }

  /** Recomputing with the same quotes, clock and draw changes nothing more:
      the metrics depend on the platforms alone, which the computation keeps. */
  lemma RecomputeIsIdempotent(pd: PortfolioData, prices: PriceMap, now: string, draw: real)
    ensures WithMetrics(WithMetrics(pd, prices, now, draw), prices, now, draw) == WithMetrics(pd, prices, now, draw)
  {
  }

  class AppSession {
    /** `let portfolioData = null`. */
    var portfolioData: Option<PortfolioData>
    /** `let currentStep = 1`. */
    var currentStep: int

    constructor ()
      ensures portfolioData == None && currentStep == FirstStep
    {
      portfolioData := None;
      currentStep := FirstStep;
    }

    /** The controls `updateNavigationButtons` derives from the current step:
        Previous is disabled on the first step, and Finish replaces Next on the
        last. */
    function Controls(): (c: WizardControls)
      reads this
      ensures c.prevDisabled <==> currentStep == FirstStep
      ensures c.nextHidden <==> currentStep == LastStep
      ensures !c.finishHidden <==> currentStep == LastStep
    {
      NavigationButtons(currentStep)
    }

    /** Export: the session's portfolio, stamped with the clock reading. */
    function Export(now: string): (doc: ExportDocument)
      reads this
      ensures doc.portfolioData == portfolioData
    {
      ExportDocument(portfolioData, now)
    }

    /** `calculatePortfolioMetrics`: nothing happens without a portfolio;
        otherwise only its `calculated` record is replaced. */
    method CalculatePortfolioMetrics(prices: PriceMap, now: string, draw: real)
      modifies this`portfolioData
      ensures old(portfolioData).None? ==> portfolioData == None
      ensures old(portfolioData).Some? ==>
        portfolioData == Some(WithMetrics(old(portfolioData).value, prices, now, draw))
      ensures old(portfolioData).Some? ==>
        && portfolioData.value.platforms == old(portfolioData).value.platforms
        && portfolioData.value.settings == old(portfolioData).value.settings
        && portfolioData.value.calculated.otherFields == old(portfolioData).value.calculated.otherFields
    {
      if portfolioData.None? {
        return;
      }
      var pd := portfolioData.value;
      var calculated := ComputeMetrics(pd, prices, now, draw);
      portfolioData := Some(pd.(calculated := calculated));
    }

    /** `initialize`: install the demo portfolio and compute its metrics. The
        fallback to the minimal portfolio is never taken, since nothing here fails. */
    method Initialize(prices: PriceMap, now: string, draw: real) returns (initialized: bool)
      modifies this`portfolioData
      ensures initialized
      ensures portfolioData == Some(WithMetrics(DemoPortfolio(), prices, now, draw))
    {
      portfolioData := Some(DemoPortfolio());
      CalculatePortfolioMetrics(prices, now, draw);
      initialized := true;
    }

    /** `changeStep` followed by `updateProgressBar` and `updateNavigationButtons`. */
    method ChangeStep(direction: int) returns (controls: WizardControls, progress: real)
      modifies this`currentStep
      ensures currentStep == ClampStep(old(currentStep), direction)
      ensures FirstStep <= currentStep <= LastStep
      ensures controls == Controls()
      ensures controls.prevDisabled <==> currentStep == FirstStep
      ensures controls.nextHidden <==> currentStep == LastStep
      ensures controls.finishHidden <==> currentStep != LastStep
      ensures progress == ProgressPercent(currentStep) && 25.0 <= progress <= 100.0
    {
      currentStep := ClampStep(currentStep, direction);
      progress := ProgressPercent(currentStep);
      controls := NavigationButtons(currentStep);
    }

    /** `finishSetup`: write the form's values into the portfolio field by field,
        then recompute the metrics. Without a portfolio the first write throws,
        the handler reports it, and nothing changes. */
    method FinishSetup(form: SetupForm, prices: PriceMap, now: string, draw: real) returns (completed: bool)
      modifies this`portfolioData
      ensures completed == old(portfolioData).Some?
      ensures !completed ==> portfolioData == old(portfolioData)
      ensures completed ==>
        portfolioData == Some(WithMetrics(ApplySetupForm(old(portfolioData).value, form), prices, now, draw))
      ensures completed && form.holdingRows.Some? ==>
        portfolioData.value.platforms.robinhood.holdings == CollectHoldings(form.holdingRows.value)
    {
      if portfolioData.None? {
        return false;
      }
      var pd := portfolioData.value;
      pd := pd.(platforms := pd.platforms.(robinhood := pd.platforms.robinhood.(
        cash := OrDefault(form.robinhoodCash, 0.0))));
      pd := pd.(settings := pd.settings.(monthlyInvestment := OrDefault(form.monthlyInvestment, 500.0)));
      if form.holdingRows.Some? {
        pd := pd.(platforms := pd.platforms.(robinhood := pd.platforms.robinhood.(
          holdings := CollectHoldings(form.holdingRows.value))));
      }
      pd := pd.(platforms := pd.platforms.(fidelity := pd.platforms.fidelity.(
        msftESPP := pd.platforms.fidelity.msftESPP.(shares := OrDefault(form.msftESPPShares, 0.0)))));
      pd := pd.(platforms := pd.platforms.(fidelity := pd.platforms.fidelity.(
        msftESPP := pd.platforms.fidelity.msftESPP.(avgCost := OrDefault(form.msftESPPCost, 380.0)))));
      pd := pd.(platforms := pd.platforms.(retirement401k := pd.platforms.retirement401k.(
        totalBalance := OrDefault(form.total401k, 0.0))));
      pd := pd.(platforms := pd.platforms.(retirement401k := pd.platforms.retirement401k.(
        employerMatch := OrDefault(form.employerMatch, 0.0))));
      pd := pd.(platforms := pd.platforms.(msftRSU := pd.platforms.msftRSU.(
        shares := OrDefault(form.msftRSUShares, 0.0))));
      portfolioData := Some(pd);
      CalculatePortfolioMetrics(prices, now, draw);
      completed := true;
    }

    /** `updateRiskTolerance` with the slider's integer value. The metrics are
        not recomputed. */
    method UpdateRiskTolerance(value: int)
      modifies this`portfolioData
      ensures old(portfolioData).None? ==> portfolioData == None
      ensures old(portfolioData).Some? ==>
        portfolioData == Some(old(portfolioData).value.(
          settings := old(portfolioData).value.settings.(riskTolerance := RiskToleranceFor(value))))
    {
      if portfolioData.Some? {
        var pd := portfolioData.value;
        portfolioData := Some(pd.(settings := pd.settings.(riskTolerance := RiskToleranceFor(value))));
      }
    }

    /** `handleFileImport` with the document as parsed: `None` when no file was
        chosen or it did not parse. The session's portfolio is replaced, and its
        metrics recomputed, only when the document carries a `portfolioData`. */
    method HandleFileImport(file: Option<ExportDocument>, prices: PriceMap, now: string, draw: real)
      returns (imported: bool)
      modifies this`portfolioData
      ensures imported <==> file.Some? && file.value.portfolioData.Some?
      ensures imported ==> portfolioData == Some(WithMetrics(file.value.portfolioData.value, prices, now, draw))
      ensures !imported ==> portfolioData == old(portfolioData)
    {
      if file.None? {
        return false;
      }
      var data := file.value;
      if data.portfolioData.Some? {
        portfolioData := data.portfolioData;
        CalculatePortfolioMetrics(prices, now, draw);
        imported := true;
      } else {
        imported := false;
      }
    }
  }

  /** Exporting and importing the document again keeps the platforms and
      settings, and leaves a session without a portfolio as it was. */
  method ExportImportRoundTrip(s: AppSession, stamp: string, prices: PriceMap, now: string, draw: real)
    modifies s
    ensures old(s.portfolioData).None? ==> s.portfolioData == None
    ensures old(s.portfolioData).Some? ==>
      && s.portfolioData.Some?
      && s.portfolioData.value.platforms == old(s.portfolioData).value.platforms
      && s.portfolioData.value.settings == old(s.portfolioData).value.settings
    ensures old(s.portfolioData).Some? ==>
      s.portfolioData == Some(WithMetrics(old(s.portfolioData).value, prices, now, draw))
    ensures s.currentStep == old(s.currentStep)
  {
    var doc := s.Export(stamp);
    var imported := s.HandleFileImport(Some(doc), prices, now, draw);
  }
}
