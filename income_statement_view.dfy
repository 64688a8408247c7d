/** What the income-statement card shows (components/financial/income-statement.tsx):
    the income, cost and expense sections looked up by name, gross profit, operating
    income, the profit/loss line and the three margins. */
module IncomeStatementView {
  import opened Common
  import opened ReportsService

  /** `sections.find((s) => s.name.includes(key))`: the first section whose name
      contains key. */
  function Find(ss: seq<Section>, key: string): Option<Section> {
    if ss == [] then None
    else if Contains(ss[0].name, key) then Some(ss[0])
    else Find(ss[1..], key)
  }

  /** Find gives None exactly when no name contains the key, and otherwise the first
      section whose name does. */
  lemma {:induction false} FindSpec(ss: seq<Section>, key: string)
    ensures Find(ss, key).None? <==> forall i :: 0 <= i < |ss| ==> !Contains(ss[i].name, key)
    ensures Find(ss, key).Some? ==> exists i :: 0 <= i < |ss| && ss[i] == Find(ss, key).value && Contains(ss[i].name, key) &&
                                          forall j :: 0 <= j < i ==> !Contains(ss[j].name, key)
    decreases |ss|
  {
    if ss != [] && !Contains(ss[0].name, key) {
      var rest := ss[1..];
      FindSpec(rest, key);
      assert forall i :: 0 < i < |ss| ==> rest[i - 1] == ss[i];
      if Find(rest, key).Some? {
        var i :| 0 <= i < |rest| && rest[i] == Find(rest, key).value && Contains(rest[i].name, key) &&
                 forall j :: 0 <= j < i ==> !Contains(rest[j].name, key);
        assert ss[i + 1] == rest[i];
        assert forall j :: 0 < j < i + 1 ==> ss[j] == rest[j - 1];
      }
    }
  }

  lemma {:induction false} FindAppend(a: seq<Section>, b: seq<Section>, key: string)
    ensures Find(a + b, key) == if Find(a, key).Some? then Find(a, key) else Find(b, key)
    decreases |a|
  {
    if a == [] {
      assert a + b == b;
    } else {
      assert (a + b)[1..] == a[1..] + b;
      FindAppend(a[1..], b, key);
    }
  }

  /** `section?.subtotal || 0`. */
  function SubtotalOf(s: Option<Section>): int {
    if s.Some? then s.value.subtotal else 0
  }

  datatype NetLabel = UtilidadNeta | PerdidaNeta

  datatype IncomeView =
    | NoIncomeData
    | IncomeReport(
        periodName: string, revenues: Option<Section>, costs: Option<Section>, expenses: Option<Section>,
        totalRevenues: int, totalCosts: int, totalExpenses: int,
        grossProfit: int, operatingIncome: int, netLabel: NetLabel, shownAmount: int,
        grossMargin: real, operatingMargin: real, expenseRatio: real)

  /** The percentage `(x / totalRevenues) * 100` when totalRevenues > 0, otherwise 0:
      all three margins are 0 unless there is revenue. */
  function Margin(x: int, totalRevenues: int): (r: real)
    ensures totalRevenues <= 0 ==> r == 0.0
    ensures totalRevenues > 0 ==> r * (totalRevenues as real) == (x * 100) as real
  {
    GuardedRatio(x, totalRevenues) * 100.0
  }

  function RenderIncomeStatement(data: Option<Statement>): (v: IncomeView)
    ensures v.NoIncomeData? <==> data.None? || data.value.sections == []
    ensures v.IncomeReport? ==>
      && v.revenues == Find(data.value.sections, "INGRESO")
      && v.costs == Find(data.value.sections, "COSTO")
      && v.expenses == Find(data.value.sections, "GASTO")
      && v.totalRevenues == SubtotalOf(v.revenues)
      && v.totalCosts == SubtotalOf(v.costs)
      && v.totalExpenses == SubtotalOf(v.expenses)
      && v.grossProfit == v.totalRevenues - v.totalCosts
      && v.operatingIncome == v.totalRevenues - (v.totalCosts + v.totalExpenses)
      && (v.netLabel == UtilidadNeta <==> v.operatingIncome >= 0)
      && v.shownAmount == Abs(v.operatingIncome)
      && v.grossMargin == Margin(v.grossProfit, v.totalRevenues)
      && v.operatingMargin == Margin(v.operatingIncome, v.totalRevenues)
      && v.expenseRatio == Margin(v.totalExpenses, v.totalRevenues)
  {
    if data.None? || data.value.sections == [] then NoIncomeData
    else
      var ss := data.value.sections;
      var revenues, costs, expenses := Find(ss, "INGRESO"), Find(ss, "COSTO"), Find(ss, "GASTO");
      var totalRevenues, totalCosts, totalExpenses := SubtotalOf(revenues), SubtotalOf(costs), SubtotalOf(expenses);
      var grossProfit := totalRevenues - totalCosts;
      var operatingIncome := grossProfit - totalExpenses;
      IncomeReport(data.value.periodName, revenues, costs, expenses, totalRevenues, totalCosts, totalExpenses,
                   grossProfit, operatingIncome,
                   if operatingIncome >= 0 then UtilidadNeta else PerdidaNeta, Abs(operatingIncome),
                   Margin(grossProfit, totalRevenues), Margin(operatingIncome, totalRevenues),
                   Margin(totalExpenses, totalRevenues))
  }

  /** Which of the three keys each section name of the income statement contains. */
  lemma IncomeNameKeys()
    ensures Contains(IncomeName, "INGRESO") && !Contains(IncomeName, "COSTO") && !Contains(IncomeName, "GASTO")
  {
  }

  lemma CostNameKeys()
    ensures Contains(CostName, "COSTO") && !Contains(CostName, "INGRESO") && !Contains(CostName, "GASTO")
  {
    assert !ContainsFrom(CostName, "GASTO", 5);
  }

  lemma ExpenseNameKeys()
    ensures Contains(ExpenseName, "GASTO") && !Contains(ExpenseName, "INGRESO") && !Contains(ExpenseName, "COSTO")
  {
    assert !ContainsFrom(ExpenseName, "INGRESO", 10);
    assert !ContainsFrom(ExpenseName, "INGRESO", 5);
    assert !ContainsFrom(ExpenseName, "COSTO", 12);
    assert !ContainsFrom(ExpenseName, "COSTO", 6);
  }

  /** Looking up a key in one optional section. */
  lemma FindInOptional(code: int, name: string, accounts: seq<AccountBalance>, key: string)
    ensures Find(SectionIfAny(code, name, accounts), key) ==
      if |accounts| > 0 && Contains(name, key) then Some(SectionIfAny(code, name, accounts)[0]) else None
  {
  }

  lemma {:induction false} BucketSubtotal(rows: seq<StatementRow>, code: int, name: string, accountType: string)
    ensures var ss := SectionIfAny(code, name, MapAccounts(OfType(rows, accountType)));
      SubtotalOf(if ss == [] then None else Some(ss[0])) == TypeSum(rows, accountType)
  {
    BalanceSumOfMap(OfType(rows, accountType));
    if |OfType(rows, accountType)| == 0 {
      assert OfType(rows, accountType) == [];
    }
  }

  /** The card finds each section of a service statement under its own key, with
      the sum of that type's amounts as subtotal (0 when the section is absent). */
  lemma RevenueLookup(rows: seq<StatementRow>)
    ensures SubtotalOf(Find(IncomeSections(rows), "INGRESO")) == TypeSum(rows, Ingreso)
  {
    IncomeNameKeys();
    CostNameKeys();
    ExpenseNameKeys();
    var i := SectionIfAny(4000, IncomeName, MapAccounts(OfType(rows, Ingreso)));
    var c := SectionIfAny(5100, CostName, MapAccounts(OfType(rows, Costo)));
    var g := SectionIfAny(5200, ExpenseName, MapAccounts(OfType(rows, Gasto)));
    FindAppend(i + c, g, "INGRESO");
    FindAppend(i, c, "INGRESO");
    FindInOptional(4000, IncomeName, MapAccounts(OfType(rows, Ingreso)), "INGRESO");
    FindInOptional(5100, CostName, MapAccounts(OfType(rows, Costo)), "INGRESO");
    FindInOptional(5200, ExpenseName, MapAccounts(OfType(rows, Gasto)), "INGRESO");
    BucketSubtotal(rows, 4000, IncomeName, Ingreso);
  }

  lemma CostLookup(rows: seq<StatementRow>)
    ensures SubtotalOf(Find(IncomeSections(rows), "COSTO")) == TypeSum(rows, Costo)
  {
    IncomeNameKeys();
    CostNameKeys();
    ExpenseNameKeys();
    var i := SectionIfAny(4000, IncomeName, MapAccounts(OfType(rows, Ingreso)));
    var c := SectionIfAny(5100, CostName, MapAccounts(OfType(rows, Costo)));
    var g := SectionIfAny(5200, ExpenseName, MapAccounts(OfType(rows, Gasto)));
    FindAppend(i + c, g, "COSTO");
    FindAppend(i, c, "COSTO");
    FindInOptional(4000, IncomeName, MapAccounts(OfType(rows, Ingreso)), "COSTO");
    FindInOptional(5100, CostName, MapAccounts(OfType(rows, Costo)), "COSTO");
    FindInOptional(5200, ExpenseName, MapAccounts(OfType(rows, Gasto)), "COSTO");
    BucketSubtotal(rows, 5100, CostName, Costo);
  }

  lemma ExpenseLookup(rows: seq<StatementRow>)
    ensures SubtotalOf(Find(IncomeSections(rows), "GASTO")) == TypeSum(rows, Gasto)
  {
    IncomeNameKeys();
    CostNameKeys();
    ExpenseNameKeys();
    var i := SectionIfAny(4000, IncomeName, MapAccounts(OfType(rows, Ingreso)));
    var c := SectionIfAny(5100, CostName, MapAccounts(OfType(rows, Costo)));
    var g := SectionIfAny(5200, ExpenseName, MapAccounts(OfType(rows, Gasto)));
    FindAppend(i + c, g, "GASTO");
    FindAppend(i, c, "GASTO");
    FindInOptional(4000, IncomeName, MapAccounts(OfType(rows, Ingreso)), "GASTO");
    FindInOptional(5100, CostName, MapAccounts(OfType(rows, Costo)), "GASTO");
    FindInOptional(5200, ExpenseName, MapAccounts(OfType(rows, Gasto)), "GASTO");
    BucketSubtotal(rows, 5200, ExpenseName, Gasto);
  }

  /** The card's operating income is the total the service computes for the same rows. */
  lemma ViewOfServiceStatement(periodName: string, periodId: string, rows: seq<StatementRow>)
    requires IncomeSections(rows) != []
    ensures var v := RenderIncomeStatement(Some(Statement(periodName, periodId, IncomeSections(rows), IncomeTotal(rows))));
      v.IncomeReport? && v.operatingIncome == IncomeTotal(rows)
  {
    RevenueLookup(rows);
    CostLookup(rows);
    ExpenseLookup(rows);
  }
}
