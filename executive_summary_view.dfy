/** What the executive-summary card shows (components/financial/executive-summary.tsx):
    the structure percentages and the three health indicators, each a three-level
    rating (the green / yellow / red colour) with a label and a progress value. */
module ExecutiveSummaryView {
  import opened Common
  import opened ReportsService

  /** The colour of an indicator: green, yellow or red. */
  datatype Rating = Green | Yellow | Red

  function Rank(r: Rating): int {
    match r
    case Green => 2
    case Yellow => 1
    case Red => 0
  }

  /** Current ratio: at least 1.5 is green ("Excelente"), at least 1 yellow ("Buena"),
      otherwise red ("Baja"). */
  function LiquidityRating(currentRatio: real): (r: Rating)
    ensures r == Green <==> currentRatio >= 1.5
    ensures r == Red <==> currentRatio < 1.0
  {
    if currentRatio >= 1.5 then Green else if currentRatio >= 1.0 then Yellow else Red
  }

  function LiquidityLabel(r: Rating): string {
    match r
    case Green => "Excelente"
    case Yellow => "Buena"
    case Red => "Baja"
  }

  /** Debt to equity: at most 0.5 is green ("Bajo"), at most 1 yellow ("Moderado"),
      otherwise red ("Alto"). */
  function DebtRating(debtToEquity: real): (r: Rating)
    ensures r == Green <==> debtToEquity <= 0.5
    ensures r == Red <==> debtToEquity > 1.0
  {
    if debtToEquity <= 0.5 then Green else if debtToEquity <= 1.0 then Yellow else Red
  }

  function DebtLabel(r: Rating): string {
    match r
    case Green => "Bajo"
    case Yellow => "Moderado"
    case Red => "Alto"
  }

  /** Profit margin (in percent): at least 10 is green ("Alta"), at least 5 yellow
      ("Media"), otherwise red ("Baja"). */
  function ProfitabilityRating(profitMargin: real): (r: Rating)
    ensures r == Green <==> profitMargin >= 10.0
    ensures r == Red <==> profitMargin < 5.0
  {
    if profitMargin >= 10.0 then Green else if profitMargin >= 5.0 then Yellow else Red
  }

  function ProfitabilityLabel(r: Rating): string {
    match r
    case Green => "Alta"
    case Yellow => "Media"
    case Red => "Baja"
  }

  /** A better ratio never gets a worse rating: liquidity and profitability rise with
      their ratio, the debt rating falls with the debt ratio. */
  lemma RatingsMonotone(a: real, b: real)
    requires a <= b
    ensures Rank(LiquidityRating(a)) <= Rank(LiquidityRating(b))
    ensures Rank(ProfitabilityRating(a)) <= Rank(ProfitabilityRating(b))
    ensures Rank(DebtRating(a)) >= Rank(DebtRating(b))
  {
  }

  /** `currentRatio >= 1.5 ? 100 : (currentRatio / 1.5) * 100`. */
  function LiquidityProgress(currentRatio: real): (p: real)
    ensures p <= 100.0
    ensures currentRatio >= 0.0 ==> p >= 0.0
    ensures currentRatio >= 1.5 <==> p == 100.0
  {
    if currentRatio >= 1.5 then 100.0 else (currentRatio / 1.5) * 100.0
  }

  /** `debtToEquity <= 1 ? 100 : Math.max(0, 100 - (debtToEquity - 1) * 50)`. */
  function DebtProgress(debtToEquity: real): (p: real)
    ensures 0.0 <= p <= 100.0
    ensures debtToEquity <= 1.0 <==> p == 100.0
    ensures debtToEquity >= 3.0 <==> p == 0.0
  {
    if debtToEquity <= 1.0 then 100.0
    else
      var v := 100.0 - (debtToEquity - 1.0) * 50.0;
      if v >= 0.0 then v else 0.0
  }

  /** `profitMargin >= 10 ? 100 : (profitMargin / 10) * 100`. */
  function ProfitabilityProgress(profitMargin: real): (p: real)
    ensures p <= 100.0
    ensures profitMargin >= 0.0 ==> p >= 0.0
    ensures profitMargin >= 10.0 <==> p == 100.0
  {
    if profitMargin >= 10.0 then 100.0 else (profitMargin / 10.0) * 100.0
  }

  /** The structure percentages: each part over total assets, 0 without assets. */
  datatype Structure = Structure(assetsPercent: real, liabilitiesPercent: real, equityPercent: real)

  function StructureOf(t: Totals): (s: Structure)
    ensures s.assetsPercent == 100.0 <==> t.assets > 0
    ensures t.assets <= 0 ==> s == Structure(0.0, 0.0, 0.0)
    ensures t.assets > 0 ==> s.liabilitiesPercent * (t.assets as real) == (t.liabilities * 100) as real
    ensures t.assets > 0 ==> s.equityPercent * (t.assets as real) == (t.equity * 100) as real
  {
    Structure(if t.assets > 0 then 100.0 else 0.0,
              GuardedRatio(t.liabilities, t.assets) * 100.0,
              GuardedRatio(t.equity, t.assets) * 100.0)
  }

  /** When assets equal liabilities plus equity, the two shares add up to 100. */
  lemma SharesOfBalancedSheet(t: Totals)
    requires t.assets > 0 && t.assets == t.liabilities + t.equity
    ensures StructureOf(t).liabilitiesPercent + StructureOf(t).equityPercent == 100.0
  {
    var a, l, e := t.assets as real, t.liabilities as real, t.equity as real;
    assert GuardedRatio(t.liabilities, t.assets) == l / a;
    assert GuardedRatio(t.equity, t.assets) == e / a;
    assert l / a + e / a == (l + e) / a;
    assert (l + e) / a == 1.0;
  }

  datatype Indicator = Indicator(rating: Rating, caption: string, progress: real)

  datatype SummaryView =
    | NoSummaryData
    | SummaryCard(
        netIncomeGain: bool, netIncomeShown: int, structure: Structure,
        liquidity: Indicator, debt: Indicator, profitability: Indicator)

  /** The whole card; the net-income card is green with "Ganancia" iff netIncome >= 0
      and shows |netIncome|. */
  function RenderExecutiveSummary(data: Option<ExecutiveSummary>): (v: SummaryView)
    ensures v.NoSummaryData? <==> data.None?
    ensures v.SummaryCard? ==>
      && (v.netIncomeGain <==> data.value.metrics.netIncome >= 0)
      && v.netIncomeShown == Abs(data.value.metrics.netIncome)
      && v.structure == StructureOf(data.value.totals)
      && v.liquidity.rating == LiquidityRating(data.value.metrics.currentRatio)
      && v.debt.rating == DebtRating(data.value.metrics.debtToEquity)
      && v.profitability.rating == ProfitabilityRating(data.value.metrics.profitMargin)
      && v.liquidity.progress == LiquidityProgress(data.value.metrics.currentRatio)
      && v.debt.progress == DebtProgress(data.value.metrics.debtToEquity)
      && v.profitability.progress == ProfitabilityProgress(data.value.metrics.profitMargin)
      && v.liquidity.caption == LiquidityLabel(v.liquidity.rating)
      && v.debt.caption == DebtLabel(v.debt.rating)
      && v.profitability.caption == ProfitabilityLabel(v.profitability.rating)
  {
    if data.None? then NoSummaryData
    else
      var m := data.value.metrics;
      var lr, dr, pr := LiquidityRating(m.currentRatio), DebtRating(m.debtToEquity), ProfitabilityRating(m.profitMargin);
      SummaryCard(m.netIncome >= 0, Abs(m.netIncome), StructureOf(data.value.totals),
                  Indicator(lr, LiquidityLabel(lr), LiquidityProgress(m.currentRatio)),
                  Indicator(dr, DebtLabel(dr), DebtProgress(m.debtToEquity)),
                  Indicator(pr, ProfitabilityLabel(pr), ProfitabilityProgress(m.profitMargin)))
  }

  /** For a summary the service computed, the ratio inputs of the indicators are never
      negative when the balances are not: the progress bars then stay within [0, 100]. */
  lemma ProgressInRange(t: Totals)
    requires t.currentAssets >= 0 && t.currentLiabilities >= 0
    requires t.revenue >= t.expenses
    ensures var m := SummaryMetrics(t);
      && 0.0 <= LiquidityProgress(m.currentRatio) <= 100.0
      && 0.0 <= DebtProgress(m.debtToEquity) <= 100.0
      && 0.0 <= ProfitabilityProgress(m.profitMargin) <= 100.0
  {
    var m := SummaryMetrics(t);
    if t.currentLiabilities > 0 {
      assert m.currentRatio * (t.currentLiabilities as real) >= 0.0;
    }
    if t.revenue > 0 {
      assert m.profitMargin * (t.revenue as real) >= 0.0;
    }
  }
}
