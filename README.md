# Smart Portfolio Advisor: the metrics aggregator and the setup wizard, in Dafny

This project models the core of a client-side portfolio dashboard (`app.js`).
The core is the portfolio metrics aggregator, `PortfolioDataService.calculatePortfolioMetrics`.
It takes a portfolio record and a symbol-to-price map and computes:

- a value for each of the four platforms: the brokerage, the Fidelity ESPP lot, the 401k and the RSU grant;
- their total;
- the MSFT exposure and the MSFT concentration percentage;
- a diversification score between 1 and 10, from the set of exposure labels.

It then replaces the portfolio's `calculated` record.

Beside it the project models the small stateful pieces around it:

- the setup wizard's step counter and the buttons derived from it;
- the holdings collected from the wizard's form rows;
- the `|| default` readings of the other form fields;
- the risk-tolerance slider mapping;
- the guard that lets an imported document replace the portfolio.

Files:

- `portfolio_model.dfy` (module `PortfolioModel`): the portfolio record as datatypes, and the demo and minimal portfolios.
- `metrics.dfy` (module `Metrics`): pricing, the per-platform values, the label set and the score, as functions. `ComputeMetrics` is the source's loop with its accumulators, proved equal to the function `Recalculated`. The lemmas state the aggregator's properties.
- `setup.dfy` (module `Setup`): the step clamp, the navigation controls, the holdings map and filter, the form defaults and the risk mapping.
- `session.dfy` (module `Session`): class `AppSession`. It holds the two globals `portfolioData` (an `Option`, for `null`) and `currentStep`. Its methods update them in place as the source's functions do.

Modelling choices:

- Money is exact `real`.
- The quote table, the clock reading (`lastUpdated`) and the random draw behind `dailyChange` are parameters of every operation that would fetch them.

Behaviours of the code that the model keeps as written:

- ESPP and RSU shares are priced at `prices.MSFT || 425.50`. Their own `avgCost` is never used (app.js:155, 166).
- The employer stock is always the literal `'MSFT'`. The `specialConsiderations.employerStock` setting is never read (app.js:139, 149).
- A quote of 0 counts as missing, like an absent one, because JavaScript's `||` treats 0 as false (app.js:146, 155).
- The diversification labels form a JavaScript `Set`, so MSFT counts once however many platforms hold it (app.js:175-180).
- Every brokerage symbol is a label, even one with zero shares (app.js:176).
- `pricesUsed` stores the quotes answered for the fetched symbols (the brokerage symbols and MSFT), not the whole quote source (app.js:137-141, 185).

## Model

| member | source | states |
|---|---|---|
| `Metrics.ComputeMetrics` | app.js:132-186 | The loop over the brokerage holdings, with its `robinhoodValue` and `msftValue` accumulators, produces exactly `Recalculated` of the previous record. The total is the sum of the four breakdown entries. The 401k entry is `totalBalance` verbatim. Concentration is 0 when the total is not positive. Keys that the spread does not overwrite are kept. |
| `Metrics.Quote` | app.js:146 | `prices[symbol] \|\| fallback`: the table's quote when it is present and non-zero, else the fallback. The result is 0 only when the fallback is 0. |
| `Metrics.HoldingValue` | app.js:146-147 | One holding is worth its shares times `prices[symbol] \|\| avgCost`. |
| `Metrics.HoldingsValue` | app.js:145-148 | The holdings sum, accumulated front to back as the `forEach` does. |
| `Metrics.MsftHoldingsValue` | app.js:149 | The part of the holdings sum from holdings whose symbol is exactly `'MSFT'`. |
| `Metrics.MsftPrice` | app.js:155 | `prices.MSFT \|\| 425.50`: the MSFT quote when present and non-zero, else 425.50. It is never 0. |
| `Metrics.PlatformBreakdown` | app.js:143-169 | The four platform values. The 401k entry is its `totalBalance` verbatim. An empty brokerage is worth its cash. ESPP and RSU with no shares are worth 0. |
| `Metrics.Total` | app.js:152-169 | `totalValue`: the sum of the four platform values. |
| `Metrics.MsftExposure` | app.js:149-167 | MSFT exposure is the MSFT part of the brokerage sum plus the whole ESPP and RSU platform values. |
| `Metrics.Concentration` | app.js:174 | A total that is not positive gives concentration 0, with no division. |
| `Metrics.Symbols` | app.js:175-176 | `holdings.map(h => h.symbol)`: one symbol per holding, in order. |
| `Metrics.LabelList` | app.js:175-179 | The array spread into the `Set`: every brokerage symbol, `'MSFT'` for positive ESPP shares, `'MSFT'` for positive RSU shares, `'401K'` for a positive 401k balance. |
| `Metrics.ExposureLabels` | app.js:175 | The `Set` of those labels, with duplicates collapsed. |
| `Metrics.FetchedSymbols` | app.js:137-141 | The symbols requested from the market-data service are exactly the brokerage symbols and MSFT. |
| `Metrics.FetchedQuotes` | app.js:141 | The answered table holds, for every fetched symbol the quote source knows, its quote, and nothing else. |
| `Metrics.Recalculated` | app.js:171-186 | The new `calculated` record: concentration 0 when the total is not positive, score in [1, 10], and the keys the spread does not overwrite kept. |
| `Metrics.ValueBrokerage` | app.js:144-150 | The `forEach` with its accumulators: the brokerage value is cash plus the holdings sum, and the MSFT accumulator is the MSFT part of that sum. |
| `Metrics.EquityPlatformsZeroIffNoShares` | app.js:155-167 | The ESPP platform is worth 0 iff it holds no shares, and likewise the RSU platform. |
| `Metrics.QuotesAgreeOnFetchedSymbols` | app.js:137-146 | The answered table gives every brokerage symbol and MSFT the same effective quote as the quote source. |
| `Metrics.FetchedQuotesPriceAlike` | app.js:144-155 | Pricing from the answered table gives the same brokerage sums and MSFT price as pricing from the whole quote source. |
| `Metrics.FetchedQuotesSuffice` | app.js:137-186 | Computing from the answered table alone gives the same record as computing from the whole quote source. |
| `Metrics.DiversificationScore` | app.js:175-180 | For any label count the score is in [1, 10]. It equals 1 exactly when there are no labels. It equals 10 exactly from 7 labels upward. In between it is 1.5 × count. |
| `Metrics.DailyChange` | app.js:184 | A random draw in [0, 1) gives a daily change in [-1, 1). |
| `Metrics.MsftHoldingsWithinHoldings` | app.js:145-150 | With non-negative shares, costs and quotes, the MSFT part of the brokerage sum is between 0 and the whole brokerage holdings sum. |
| `Metrics.ConcentrationIsPercentage` | app.js:174 | With non-negative cash, shares, costs, quotes and balance, `msftConcentration` lies in [0, 100]. |
| `Metrics.ZeroTotalHasZeroConcentration` | app.js:174 | A portfolio worth 0 has total 0 and concentration exactly 0, with no division. |
| `Metrics.MissingQuoteUsesCostBasis` | app.js:146-148 | A holding whose quote is missing or zero adds exactly shares × avgCost to the brokerage value and to the total. |
| `Metrics.QuotedHoldingUsesQuote` | app.js:146-148 | A holding whose quote is present and non-zero adds exactly shares × quote to the brokerage value and to the total, whatever its avgCost. |
| `Metrics.EquityCompensationPricing` | app.js:155-166 | ESPP and RSU values are shares × the MSFT quote when that quote is present and non-zero, and shares × 425.50 otherwise. |
| `Metrics.IgnoredFieldsDoNotMatter` | app.js:144-169 | The employer match, the 401k funds, the Fidelity holdings list and the ESPP and RSU cost bases never change the computed record. So the employer match never contributes to the total. |
| `Metrics.HoldingsValueDependsOnQuotedSymbols` | app.js:145-150 | Two quote tables that give the same effective price for every held symbol give the same brokerage sums. |
| `Metrics.MetricsDependOnlyOnFetchedQuotes` | app.js:137-141 | Only the quotes of the brokerage symbols and of MSFT, the symbols the source fetches, affect the result. The result differs at most in `pricesUsed`. |
| `Metrics.ExposureLabelsMembership` | app.js:175-179 | Both directions: a string is a label iff it is some brokerage holding's symbol, or it is MSFT with positive ESPP or RSU shares, or it is 401K with a positive balance. |
| `Metrics.LabelCountBound` | app.js:175-180 | There are at most (number of brokerage holdings + 2) distinct labels: the ESPP and RSU entries collapse into one MSFT label. |
| `Metrics.MsftCountedOnce` | app.js:175-179 | When the brokerage holds MSFT, the ESPP and RSU share counts do not change the label set. With a positive ESPP lot, the RSU count does not change it either. |
| `Metrics.ZeroShareHoldingStillCounts` | app.js:144-180 | Appending a zero-share holding leaves every platform value and the MSFT exposure unchanged, and adds its symbol to the label set. |
| `Metrics.MinimumScoreIffNoExposure` | app.js:175-180 | The score is 1 iff there is no brokerage holding, no positive ESPP or RSU shares and no positive 401k balance. |
| `Metrics.SingleFundExample` | app.js:129-186 | Example: cash 2500, 5 VOO quoted at 600, a 25000 401k and no MSFT give breakdown (5500, 0, 25000, 0), total 30500, concentration 0 and score 3. |
| `Metrics.DemoQuotes` | app.js:15-17 | The market-data service's base prices for MSFT, VOO, NVDA, ARKK and GOOGL. |
| `Metrics.DemoBrokerageSums` | app.js:143-150 | For the demo holdings at the market-data base prices, the holdings sum is 7383.33 and the MSFT part is 3404. |
| `Metrics.DemoLabelCount` | app.js:175-180 | The demo portfolio has exactly six distinct labels, although MSFT appears three times in the label list. |
| `Metrics.DemoPortfolioExample` | app.js:129-186 | For the demo portfolio at base prices: breakdown (9883.33, 6382.5, 25000, 2127.5), total 43393.33, MSFT value 11914, concentration 11914 / 43393.33 × 100 and score 9. |
| `PortfolioModel.DemoPortfolio` | app.js:67-114 | The demo record has five brokerage holdings, carries special considerations and starts with the zeroed `calculated` record. |
| `PortfolioModel.MinimalPortfolio` | app.js:116-127 | The minimal record has no brokerage holdings and no special considerations, and starts with the zeroed `calculated` record. |
| `Setup.ClampStep` | app.js:276 | For any direction the new step is in [1, 4]. It is current + direction when that lies in range, 1 below the range and 4 above it. |
| `Setup.NavigationButtons` | app.js:294-296 | Previous is disabled iff the step is 1, Next is hidden iff it is 4, and exactly one of Next and Finish is shown. |
| `Setup.Walk` | app.js:274-276 | The step reached from a starting step by a sequence of `changeStep` calls. |
| `Setup.Kept` | app.js:365 | `holding.symbol && holding.shares > 0`. |
| `Setup.FilterKept` | app.js:365 | The filter keeps every holding with a symbol and positive shares, drops every other, and adds nothing. |
| `Setup.AsRows` | app.js:264-270 | `populateActualData` writes one form row per holding, in order, carrying its symbol, shares and avgCost. |
| `Setup.CollectHoldings` | app.js:361-365 | The `map` over the form rows followed by the `filter`. |
| `Setup.ProgressPercent` | app.js:282-287 | For a wizard step the bar width is between 25 and 100 percent. It is 100 exactly at the last step. |
| `Setup.ControlsAfterMove` | app.js:289-297 | After a move, Previous is disabled iff the move aimed at or below step 1. Next is hidden iff it aimed at or beyond step 4. Finish is hidden iff it aimed below step 4. Exactly one of Next and Finish is visible. |
| `Setup.NextPressesStopAtLast` | app.js:274-280 | Pressing Next k times from a wizard step lands on min(4, step + k). |
| `Setup.PrevPressesStopAtFirst` | app.js:274-280 | Pressing Previous k times from a wizard step lands on max(1, step − k). |
| `Setup.WalkStaysInWizard` | app.js:276 | After any non-empty sequence of presses, from any starting value, the step is in [1, 4]. |
| `Setup.ToUpper` | app.js:362 | Upper-casing keeps the length and leaves no lower-case letter. It fixes strings that are already upper-case, and maps only the empty string to the empty string. |
| `Setup.ToHolding` | app.js:361-364 | The `map` callback: the row's symbol upper-cased, with its shares and cost. |
| `Setup.MapRows` | app.js:361-364 | One holding per form row, in order, each the row with its symbol upper-cased. |
| `Setup.CollectHoldingsSelectsRows` | app.js:361-365 | The map then filter equals selecting, in order, the rows with a non-empty symbol and shares > 0, then upper-casing them. |
| `Setup.CollectedHoldingsAreValid` | app.js:361-365 | There are no more holdings than rows. Every collected holding has a non-empty, upper-case symbol and positive shares. |
| `Setup.CollectHoldingsIdempotent` | app.js:361-365 | Writing the collected holdings back into form rows, as the wizard does on reopening, and collecting again yields the same holdings. |
| `Setup.OrDefault` | app.js:354-373 | `parseFloat(…) \|\| d` keeps a parsed, non-zero entry and yields the default for NaN or 0. A result of 0 is only possible when the default is 0. |
| `Setup.ApplySetupForm` | app.js:354-373 | Cash, monthly investment, ESPP shares and cost, 401k balance, employer match and RSU shares take the form's values with their defaults (0, 500, 0, 380, 0, 0, 0). With a holdings container present, the holdings become exactly the collected holdings; without one they are kept. `calculated`, the other settings, the Fidelity holdings, the 401k funds and the RSU cost are kept. The monthly investment and the ESPP cost are never 0 afterwards. With a holdings container present, every holding has a symbol and positive shares. |
| `Setup.RiskToleranceFor` | app.js:676-677 | Conservative iff value ≤ 3, moderate iff 3 < value ≤ 7, aggressive iff value > 7. |
| `Setup.RiskToleranceMonotone` | app.js:676-677 | Raising the slider value never lowers the category. |
| `Session.WithMetrics` | app.js:171-186 | Recomputing keeps `platforms`, `settings` and the non-overwritten keys of `calculated`. |
| `Session.RecomputeIsIdempotent` | app.js:171-186 | Recomputing twice with the same quotes, clock and draw gives the same portfolio as recomputing once. |
| `Session.AppSession.constructor` | app.js:5-8 | A new session has no portfolio and is at step 1. |
| `Session.AppSession.Controls` | app.js:290-297 | The controls for the current step: Previous is disabled iff the step is 1, Next is hidden iff it is 4, Finish is shown iff it is 4. |
| `Session.AppSession.Export` | app.js:684-686 | The exported document carries the session's portfolio, or none. |
| `Session.AppSession.CalculatePortfolioMetrics` | app.js:129-192 | Without a portfolio, nothing changes. Otherwise only `calculated` is replaced, by the recomputed record. Platforms, settings and other keys are unchanged. |
| `Session.AppSession.Initialize` | app.js:52-65 | The session holds the demo portfolio with its metrics computed, and reports success. |
| `Session.AppSession.ChangeStep` | app.js:274-297 | The step becomes the clamped step. Previous is disabled iff it is 1, Next is hidden iff it is 4, and Finish is hidden iff it is not 4. The progress bar is in [25, 100]. |
| `Session.AppSession.FinishSetup` | app.js:351-376 | Without a portfolio, nothing changes. Otherwise the form is applied and the metrics are recomputed. A given holdings list becomes exactly the collected holdings. |
| `Session.AppSession.UpdateRiskTolerance` | app.js:666-682 | With a portfolio, only `settings.riskTolerance` changes, to the slider's category, and the metrics are not recomputed. Without one, nothing changes. |
| `Session.AppSession.HandleFileImport` | app.js:704-720 | The portfolio is replaced, and its metrics computed, iff a parsed document carries `portfolioData`. Otherwise the session is unchanged. |
| `Session.ExportImportRoundTrip` | app.js:684-713 | Exporting and re-importing leaves the session holding its own portfolio with its metrics recomputed, so platforms and settings are kept. A missing portfolio stays missing, and the wizard step is untouched. |

## Left out

- `MarketDataService` (app.js:13-44): it is asynchronous and adds a `Math.random` variation to a fallback table. The quote map is a parameter instead.
- `dailyChange` and `lastUpdated`: their random draw and clock reading are parameters.
- IEEE-754 rounding: all arithmetic is exact `real`, so the totals are exact sums rather than sums within a tolerance.
- Currency and percentage formatting (`Intl.NumberFormat`, `toFixed`, app.js:204-210). This is library formatting.
- All DOM work: populating the form, adding and removing rows, the dashboard, recommendation and opportunity cards, charts, notifications, banner, navigation and keyboard shortcuts. The `step${n}` panels that `changeStep` toggles are also DOM only.
- `parseFloat`/`parseInt` on the form inputs. Form values arrive already parsed, as `Option<real>` with `None` for NaN. The slider value arrives as an integer.
- `Setup.ToUpper`: upper-cases ASCII letters only. JavaScript's `toUpperCase` is full Unicode and can change a string's length.
- `description` fields: the brokerage holdings, the ESPP lot, the RSU grant and the 401k funds all carry one (app.js:73-92). None is modelled. So the model does not show that `finishSetup` drops the holdings' descriptions when it rebuilds the holdings list.
- Export and import mechanics: `Blob`, object URLs, `file.text()` and JSON stringify/parse. A document arrives already parsed and typed. The source installs any truthy `portfolioData` whatever its shape (app.js:711-712). A missing sub-object makes the computation throw and leaves `calculated` as imported. Missing or wrongly typed leaves go through JavaScript's coercions instead. A later rendering failure is reported as "Import failed" although the portfolio was already replaced (app.js:717-718). None of this is modelled.
- `configStatus` and the `initialize` catch branch that installs the minimal portfolio: no modelled operation can fail, so that branch is unreachable in the model. The minimal portfolio is modelled as data.
- `savePortfolioData`: it only logs.
- The `!this.marketDataService` check in `calculatePortfolioMetrics`: the service is always constructed, so the check is not modelled.
- scripts/validate-setup.js and scripts/health-check.js: file-existence checks, substring checks, shell lookups and console output. There is no logic to model.
- Aliasing: `portfolioData` is modelled as a value held by the session. The source's nested in-place field writes therefore become record updates, and no other reference to the old object is observable.
