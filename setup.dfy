/** The setup wizard's pure pieces (app.js): the clamped step counter and the
    controls derived from it, the holdings collected from the form rows, the
    `|| default` readings of the other form fields, and the risk-tolerance
    category chosen by the slider. */
module Setup {
  import opened PortfolioModel

  // ---------------------------------------------------------------------------
  // Wizard step counter

  const FirstStep: int := 1
  const LastStep: int := 4

  /** `Math.max(1, Math.min(4, currentStep + direction))`, for any direction. */
  function ClampStep(step: int, direction: int): (r: int)
    ensures FirstStep <= r <= LastStep
    ensures FirstStep <= step + direction <= LastStep ==> r == step + direction
    ensures step + direction < FirstStep ==> r == FirstStep
    ensures step + direction > LastStep ==> r == LastStep
  {
    var upper := if step + direction < LastStep then step + direction else LastStep;
    if upper > FirstStep then upper else FirstStep
  }

  /** What `updateNavigationButtons` sets: whether Previous is disabled and
      whether Next and Finish are hidden. */
  datatype WizardControls = WizardControls(prevDisabled: bool, nextHidden: bool, finishHidden: bool)

  /** Previous is disabled on the first step only, Next is hidden on the last
      step only, and exactly one of Next and Finish is shown. */
  function NavigationButtons(step: int): (w: WizardControls)
    ensures w.prevDisabled <==> step == FirstStep
    ensures w.nextHidden <==> step == LastStep
    ensures w.nextHidden != w.finishHidden
  {
    WizardControls(step == FirstStep, step == LastStep, step != LastStep)
  }

  /** The progress bar width `currentStep / 4 * 100` percent. */
  function ProgressPercent(step: int): (r: real)
    ensures FirstStep <= step <= LastStep ==> 25.0 <= r <= 100.0
    ensures r == 100.0 <==> step == LastStep
  {
    step as real / 4.0 * 100.0
  }

  /** The controls shown after a move, stated in terms of where the move aimed:
      Previous is disabled iff the move reached or passed the first step, Next
      is hidden iff it reached or passed the last, and exactly one of Next and
      Finish is visible. */
  lemma ControlsAfterMove(step: int, direction: int)
    ensures var w := NavigationButtons(ClampStep(step, direction));
      && (w.prevDisabled <==> step + direction <= FirstStep)
      && (w.nextHidden <==> step + direction >= LastStep)
      && (w.finishHidden <==> step + direction < LastStep)
      && w.nextHidden != w.finishHidden
  {
  }

  /** The step reached by a sequence of button presses. */
  function Walk(step: int, directions: seq<int>): int
    decreases |directions|
  {
    if directions == [] then step else Walk(ClampStep(step, directions[0]), directions[1..])
  }

  function Presses(direction: int, count: nat): (r: seq<int>)
    ensures |r| == count
  {
    seq(count, _ => direction)
  }

  /** Pressing Next `k` times from a wizard step lands on `min(4, step + k)`:
      the counter stops at the last step however often Next is pressed. */
  lemma {:induction false} NextPressesStopAtLast(step: int, k: nat)
    requires FirstStep <= step <= LastStep
    ensures Walk(step, Presses(1, k)) == if step + k < LastStep then step + k else LastStep
    decreases k
  {
    if k > 0 {
      assert Presses(1, k)[1..] == Presses(1, k - 1);
      NextPressesStopAtLast(ClampStep(step, 1), k - 1);
    }
  }

  /** Pressing Previous `k` times lands on `max(1, step - k)`. */
  lemma {:induction false} PrevPressesStopAtFirst(step: int, k: nat)
    requires FirstStep <= step <= LastStep
    ensures Walk(step, Presses(-1, k)) == if step - k > FirstStep then step - k else FirstStep
    decreases k
  {
    if k > 0 {
      assert Presses(-1, k)[1..] == Presses(-1, k - 1);
      PrevPressesStopAtFirst(ClampStep(step, -1), k - 1);
    }
  }

  /** Whatever the presses and wherever the counter started, it ends inside the
      wizard once at least one press has been made. */
  lemma {:induction false} WalkStaysInWizard(step: int, directions: seq<int>)
    requires directions != [] || FirstStep <= step <= LastStep
    ensures FirstStep <= Walk(step, directions) <= LastStep
    decreases |directions|
  {
    if directions != [] {
      WalkStaysInWizard(ClampStep(step, directions[0]), directions[1..]);
    }
  }

  // ---------------------------------------------------------------------------
  // Holdings collected in `finishSetup`

  /** One `.holding-input` row after `parseFloat(...) || 0` on its numeric fields. */
  datatype HoldingRow = HoldingRow(symbol: string, shares: real, avgCost: real)

  predicate IsLowerAscii(c: char)
  {
    'a' <= c <= 'z'
  }

  predicate HasNoLowercase(s: string)
  {
    forall i :: 0 <= i < |s| ==> !IsLowerAscii(s[i])
  }

  function UpperChar(c: char): char
  {
    if IsLowerAscii(c) then (c as int - 32) as char else c
  }

  /** `toUpperCase`, on ASCII letters. */
  function ToUpper(s: string): (r: string)
    ensures |r| == |s|
    ensures HasNoLowercase(r)
    ensures HasNoLowercase(s) ==> r == s
    ensures r == "" <==> s == ""
  {
    seq(|s|, i requires 0 <= i < |s| => UpperChar(s[i]))
  }

  /** The `map` step: one holding per row, symbol upper-cased. */
  function ToHolding(row: HoldingRow): Holding
  {
    Holding(ToUpper(row.symbol), row.shares, row.avgCost)
  }

  function MapRows(rows: seq<HoldingRow>): (hs: seq<Holding>)
    ensures |hs| == |rows|
    ensures forall i :: 0 <= i < |rows| ==> hs[i] == ToHolding(rows[i])
  {
    seq(|rows|, i requires 0 <= i < |rows| => ToHolding(rows[i]))
  }

  /** `holding.symbol && holding.shares > 0`. */
  predicate Kept(h: Holding)
  {
    h.symbol != "" && h.shares > 0.0
  }

  /** The `filter` step: only kept holdings survive, each from the input, and
      a holding that is kept is never dropped. */
  function FilterKept(hs: seq<Holding>): (r: seq<Holding>)
    ensures |r| <= |hs|
    ensures forall h :: h in r ==> h in hs && Kept(h)
    ensures forall h :: h in hs && Kept(h) ==> h in r
  {
    if hs == [] then []
    else (if Kept(hs[0]) then [hs[0]] else []) + FilterKept(hs[1..])
  }

  /** `Array.from(holdingInputs).map(...).filter(...)`. */
  function CollectHoldings(rows: seq<HoldingRow>): seq<Holding>
  {
    FilterKept(MapRows(rows))
  }

  /** The form rows a user would keep: non-empty symbol and positive shares,
      judged on the row as entered. */
  function SelectRows(rows: seq<HoldingRow>): seq<HoldingRow>
  {
    if rows == [] then []
    else (if rows[0].symbol != "" && rows[0].shares > 0.0 then [rows[0]] else []) + SelectRows(rows[1..])
  }

  /** The collected holdings are, in their original order, exactly the rows
      with a non-empty symbol and positive shares, upper-cased. */
  lemma {:induction false} CollectHoldingsSelectsRows(rows: seq<HoldingRow>)
    ensures CollectHoldings(rows) == MapRows(SelectRows(rows))
  {
    if rows != [] {
      var hs := MapRows(rows);
      CollectHoldingsSelectsRows(rows[1..]);
      assert hs[1..] == MapRows(rows[1..]);
      var head := if rows[0].symbol != "" && rows[0].shares > 0.0 then [rows[0]] else [];
      KeptIffRowSelected(rows[0]);
      assert FilterKept(hs) == MapRows(head) + FilterKept(hs[1..]);
      MapRowsAppend(head, SelectRows(rows[1..]));
    }
  }

  /** A row's holding is kept exactly when the row has a symbol and positive shares. */
  lemma KeptIffRowSelected(row: HoldingRow)
    ensures Kept(ToHolding(row)) <==> row.symbol != "" && row.shares > 0.0
    ensures MapRows(if row.symbol != "" && row.shares > 0.0 then [row] else [])
         == if Kept(ToHolding(row)) then [ToHolding(row)] else []
  {
  }

  lemma MapRowsAppend(a: seq<HoldingRow>, b: seq<HoldingRow>)
    ensures MapRows(a + b) == MapRows(a) + MapRows(b)
  {
  }

  /** Every collected holding has a non-empty, upper-case symbol and positive
      shares, and no row yields more than one holding. */
  lemma CollectedHoldingsAreValid(rows: seq<HoldingRow>)
    ensures |CollectHoldings(rows)| <= |rows|
    ensures forall h :: h in CollectHoldings(rows) ==>
      h.symbol != "" && HasNoLowercase(h.symbol) && h.shares > 0.0
  {
    forall h | h in CollectHoldings(rows)
      ensures HasNoLowercase(h.symbol)
    {
      var i :| 0 <= i < |MapRows(rows)| && MapRows(rows)[i] == h;
    }
  }

  /** The rows `populateActualData` writes back into the form for a holdings list. */
  function AsRows(hs: seq<Holding>): (rows: seq<HoldingRow>)
    ensures |rows| == |hs|
    ensures forall i :: 0 <= i < |hs| ==> rows[i] == HoldingRow(hs[i].symbol, hs[i].shares, hs[i].avgCost)
  {
    seq(|hs|, i requires 0 <= i < |hs| => HoldingRow(hs[i].symbol, hs[i].shares, hs[i].avgCost))
  }

  lemma {:induction false} FilterKeptFixesKept(hs: seq<Holding>)
    requires forall i :: 0 <= i < |hs| ==> Kept(hs[i])
    ensures FilterKept(hs) == hs
  {
    if hs != [] {
      FilterKeptFixesKept(hs[1..]);
    }
  }

  /** Reopening the wizard on collected holdings and finishing it unchanged
      collects the same holdings again. */
  lemma CollectHoldingsIdempotent(rows: seq<HoldingRow>)
    ensures CollectHoldings(AsRows(CollectHoldings(rows))) == CollectHoldings(rows)
  {
    var hs := CollectHoldings(rows);
    CollectedHoldingsAreValid(rows);
    assert MapRows(AsRows(hs)) == hs by {
      forall i | 0 <= i < |hs|
        ensures MapRows(AsRows(hs))[i] == hs[i]
      {
        assert hs[i] in hs;
      }
    }
    forall i | 0 <= i < |hs|
      ensures Kept(hs[i])
    {
      assert hs[i] in hs;
    }
    FilterKeptFixesKept(hs);
  }

  // ---------------------------------------------------------------------------
  // The other fields of `finishSetup`

  /** The wizard's form after `parseFloat`: `None` where the field does not parse
      (NaN); `holdingRows` is `None` when the holdings container is absent. */
  datatype SetupForm = SetupForm(
    robinhoodCash: Option<real>,
    monthlyInvestment: Option<real>,
    holdingRows: Option<seq<HoldingRow>>,
    msftESPPShares: Option<real>,
    msftESPPCost: Option<real>,
    total401k: Option<real>,
    employerMatch: Option<real>,
    msftRSUShares: Option<real>)

  /** `parseFloat(...) || d`: NaN and zero both read as the default; any other
      entry is kept. */
  function OrDefault(v: Option<real>, d: real): (r: real)
    ensures v.Some? && v.value != 0.0 ==> r == v.value
    ensures v.None? || v.value == 0.0 ==> r == d
    ensures r == 0.0 ==> d == 0.0
  {
    if v.Some? && v.value != 0.0 then v.value else d
  }

  /** The assignments `finishSetup` makes before recomputing the metrics. */
  function ApplySetupForm(pd: PortfolioData, form: SetupForm): (r: PortfolioData)
    ensures r.calculated == pd.calculated
    ensures r.settings == pd.settings.(monthlyInvestment := r.settings.monthlyInvestment)
    ensures r.settings.monthlyInvestment != 0.0
    ensures r.platforms.fidelity.holdings == pd.platforms.fidelity.holdings
    ensures r.platforms.retirement401k.funds == pd.platforms.retirement401k.funds
    ensures r.platforms.msftRSU.avgCost == pd.platforms.msftRSU.avgCost
    ensures r.platforms.fidelity.msftESPP.avgCost != 0.0
    ensures r.platforms.robinhood.cash == OrDefault(form.robinhoodCash, 0.0)
    ensures r.settings.monthlyInvestment == OrDefault(form.monthlyInvestment, 500.0)
    ensures r.platforms.fidelity.msftESPP == EsppLot(OrDefault(form.msftESPPShares, 0.0), OrDefault(form.msftESPPCost, 380.0))
    ensures r.platforms.retirement401k.totalBalance == OrDefault(form.total401k, 0.0)
    ensures r.platforms.retirement401k.employerMatch == OrDefault(form.employerMatch, 0.0)
    ensures r.platforms.msftRSU.shares == OrDefault(form.msftRSUShares, 0.0)
    ensures form.holdingRows.None? ==> r.platforms.robinhood.holdings == pd.platforms.robinhood.holdings
    ensures form.holdingRows.Some? ==> r.platforms.robinhood.holdings == CollectHoldings(form.holdingRows.value)
    ensures form.holdingRows.Some? ==>
      forall h :: h in r.platforms.robinhood.holdings ==> h.symbol != "" && h.shares > 0.0
  {
    var p := pd.platforms;
    var holdings :=
      if form.holdingRows.Some? then
        CollectedHoldingsAreValid(form.holdingRows.value);
        CollectHoldings(form.holdingRows.value)
      else p.robinhood.holdings;
    pd.(
      platforms := p.(
        robinhood := Brokerage(OrDefault(form.robinhoodCash, 0.0), holdings),
        fidelity := p.fidelity.(msftESPP := EsppLot(OrDefault(form.msftESPPShares, 0.0),
                                                    OrDefault(form.msftESPPCost, 380.0))),
        retirement401k := p.retirement401k.(totalBalance := OrDefault(form.total401k, 0.0),
                                            employerMatch := OrDefault(form.employerMatch, 0.0)),
        msftRSU := p.msftRSU.(shares := OrDefault(form.msftRSUShares, 0.0))),
      settings := pd.settings.(monthlyInvestment := OrDefault(form.monthlyInvestment, 500.0)))
  }

  // ---------------------------------------------------------------------------
  // Risk tolerance

  /** `value <= 3 ? 'conservative' : value <= 7 ? 'moderate' : 'aggressive'`. */
  function RiskToleranceFor(value: int): (r: RiskTolerance)
    ensures r == Conservative <==> value <= 3
    ensures r == Moderate <==> 3 < value <= 7
    ensures r == Aggressive <==> 7 < value
  {
    if value <= 3 then Conservative else if value <= 7 then Moderate else Aggressive
  }

  function Rank(r: RiskTolerance): nat
  {
    match r
    case Conservative => 0
    case Moderate => 1
    case Aggressive => 2
  }

  /** Moving the slider up never lowers the category. */
  lemma RiskToleranceMonotone(v: int, w: int)
    requires v <= w
    ensures Rank(RiskToleranceFor(v)) <= Rank(RiskToleranceFor(w))
  {
  }
}
