/** Assembly of the financial statements (lib/services/reports-service.ts).
    The rows of the views balance_sheet_v2, income_statement_v2, t_accounts and
    account_balances are inputs, in the order the queries return them; a failing
    query is a None input. Amounts are integer cents, ratios are reals. */
module ReportsService {
  import opened Common

  /** A row of balance_sheet_v2 or income_statement_v2 (`balance` / `amount`). */
  datatype StatementRow = StatementRow(code: int, name: string, level: int, accountType: string, amount: int)

  datatype AccountBalance = AccountBalance(
    id: string, code: int, name: string, accountType: string, level: int,
    balance: int, totalDebit: int, totalCredit: int)

  datatype Section = Section(code: int, name: string, level: int, accounts: seq<AccountBalance>, subtotal: int)

  datatype Statement = Statement(periodName: string, periodId: string, sections: seq<Section>, total: int)

  /** The period a report is for: getPeriodById or getCurrentPeriod; None when not found. */
  datatype PeriodInfo = PeriodInfo(id: string, name: string)

  /** What every statement function returns from its catch block. */
  const EmptyStatement: Statement := Statement("", "", [], 0)

  /** The account entry built for a detail row: its id is the code as text. */
  function ToAccount(r: StatementRow): AccountBalance {
    AccountBalance(IntToString(r.code), r.code, r.name, r.accountType, r.level, r.amount, 0, 0)
  }

  function MapAccounts(rows: seq<StatementRow>): (r: seq<AccountBalance>)
    ensures |r| == |rows|
  {
    if rows == [] then [] else MapAccounts(rows[..|rows| - 1]) + [ToAccount(rows[|rows| - 1])]
  }

  function AmountSum(rows: seq<StatementRow>): int {
    if rows == [] then 0 else AmountSum(rows[..|rows| - 1]) + rows[|rows| - 1].amount
  }

  function BalanceSum(accounts: seq<AccountBalance>): int {
    if accounts == [] then 0 else BalanceSum(accounts[..|accounts| - 1]) + accounts[|accounts| - 1].balance
  }

  lemma {:induction false} BalanceSumOfMap(rows: seq<StatementRow>)
    ensures BalanceSum(MapAccounts(rows)) == AmountSum(rows)
    decreases |rows|
  {
    if rows != [] {
      BalanceSumOfMap(rows[..|rows| - 1]);
      assert MapAccounts(rows)[..|rows| - 1] == MapAccounts(rows[..|rows| - 1]);
    }
  }

  // ----- getBalanceSheet -----

  function OpenSection(r: StatementRow): Section {
    Section(r.code, r.name, r.level, [], 0)
  }

  function AddAccount(sec: Section, r: StatementRow): Section {
    sec.(accounts := sec.accounts + [ToAccount(r)], subtotal := sec.subtotal + r.amount)
  }

  /** The sections of the scan over `rows`, the one still open included: a level-1
      row opens a section, a level-3 row joins the open section, other rows and
      level-3 rows with no open section are skipped. */
  function Sections(rows: seq<StatementRow>): seq<Section> {
    if rows == [] then []
    else
      var s, r := Sections(rows[..|rows| - 1]), rows[|rows| - 1];
      if r.level == 1 then s + [OpenSection(r)]
      else if r.level == 3 && |s| > 0 then s[..|s| - 1] + [AddAccount(s[|s| - 1], r)]
      else s
  }

  /** The level-1 rows, in order. */
  function Headings(rows: seq<StatementRow>): seq<StatementRow> {
    if rows == [] then []
    else Headings(rows[..|rows| - 1]) + (if rows[|rows| - 1].level == 1 then [rows[|rows| - 1]] else [])
  }

  /** The level-3 rows that come after some level-1 row, in order. */
  function Attached(rows: seq<StatementRow>): seq<StatementRow> {
    if rows == [] then []
    else
      var init, r := rows[..|rows| - 1], rows[|rows| - 1];
      Attached(init) + (if r.level == 3 && |Headings(init)| > 0 then [r] else [])
  }

  /** The sum of the amounts of the ACTIVO rows. */
  function AssetSum(rows: seq<StatementRow>): int {
    if rows == [] then 0
    else AssetSum(rows[..|rows| - 1]) + (if rows[|rows| - 1].accountType == Activo then rows[|rows| - 1].amount else 0)
  }

  /** All accounts of the sections, section after section. */
  function AllAccounts(ss: seq<Section>): seq<AccountBalance> {
    if ss == [] then [] else AllAccounts(ss[..|ss| - 1]) + ss[|ss| - 1].accounts
  }

  function SubtotalSum(ss: seq<Section>): int {
    if ss == [] then 0 else SubtotalSum(ss[..|ss| - 1]) + ss[|ss| - 1].subtotal
  }

  /** One section per level-1 row. */
  lemma {:induction false} SectionsCount(rows: seq<StatementRow>)
    ensures |Sections(rows)| == |Headings(rows)|
    decreases |rows|
  {
    if rows != [] {
      SectionsCount(rows[..|rows| - 1]);
    }
  }

  predicate SameHeading(s: Section, h: StatementRow) {
    s.code == h.code && s.name == h.name && s.level == h.level
  }

  /** One section per level-1 row, in order, carrying that row's code, name and level. */
  lemma {:induction false} SectionsHeadings(rows: seq<StatementRow>)
    ensures |Sections(rows)| == |Headings(rows)|
    ensures forall k :: 0 <= k < |Sections(rows)| ==> SameHeading(Sections(rows)[k], Headings(rows)[k])
    decreases |rows|
  {
    SectionsCount(rows);
    if rows != [] {
      var p, r := rows[..|rows| - 1], rows[|rows| - 1];
      SectionsHeadings(p);
      var s, h := Sections(p), Headings(p);
      if r.level == 1 {
        assert Sections(rows) == s + [OpenSection(r)] && Headings(rows) == h + [r];
      } else if r.level == 3 && |s| > 0 {
        assert Headings(rows) == h + [] == h;
        assert Sections(rows) == s[..|s| - 1] + [AddAccount(s[|s| - 1], r)];
        assert forall k :: 0 <= k < |s| - 1 ==> Sections(rows)[k] == s[k];
      } else {
        assert Headings(rows) == h + [] == h;
        assert Sections(rows) == s;
      }
    }
  }

  /** Each section's subtotal is the sum of the balances of its accounts. */
  lemma {:induction false} SectionsSubtotals(rows: seq<StatementRow>)
    ensures forall k :: 0 <= k < |Sections(rows)| ==>
      Sections(rows)[k].subtotal == BalanceSum(Sections(rows)[k].accounts)
    decreases |rows|
  {
    if rows != [] {
      var s, r := Sections(rows[..|rows| - 1]), rows[|rows| - 1];
      SectionsSubtotals(rows[..|rows| - 1]);
      if r.level != 1 && r.level == 3 && |s| > 0 {
        var last := s[|s| - 1];
        assert (last.accounts + [ToAccount(r)])[..|last.accounts|] == last.accounts;
      }
    }
  }

  lemma {:induction false} AllAccountsSnoc(ss: seq<Section>, sec: Section)
    ensures AllAccounts(ss + [sec]) == AllAccounts(ss) + sec.accounts
    ensures SubtotalSum(ss + [sec]) == SubtotalSum(ss) + sec.subtotal
  {
    assert (ss + [sec])[..|ss|] == ss;
  }

  lemma {:induction false} AllAccountsReplaceLast(ss: seq<Section>, r: StatementRow)
    requires |ss| > 0
    ensures AllAccounts(ss[..|ss| - 1] + [AddAccount(ss[|ss| - 1], r)]) == AllAccounts(ss) + [ToAccount(r)]
    ensures SubtotalSum(ss[..|ss| - 1] + [AddAccount(ss[|ss| - 1], r)]) == SubtotalSum(ss) + r.amount
  {
    var init, last := ss[..|ss| - 1], ss[|ss| - 1];
    var sec := AddAccount(last, r);
    assert ss == init + [last];
    AllAccountsSnoc(init, last);
    AllAccountsSnoc(init, sec);
    assert sec.accounts == last.accounts + [ToAccount(r)];
    calc {
      AllAccounts(init + [sec]);
      AllAccounts(init) + (last.accounts + [ToAccount(r)]);
      (AllAccounts(init) + last.accounts) + [ToAccount(r)];
      AllAccounts(ss) + [ToAccount(r)];
    }
  }

  lemma {:induction false} RowsSnoc(rows: seq<StatementRow>, r: StatementRow)
    ensures MapAccounts(rows + [r]) == MapAccounts(rows) + [ToAccount(r)]
    ensures AmountSum(rows + [r]) == AmountSum(rows) + r.amount
  {
    assert (rows + [r])[..|rows|] == rows;
  }

  /** The accounts of the sections are exactly the level-3 rows after the first
      level-1 row, in order, and the subtotals add up to their amounts. */
  lemma {:induction false} SectionsAccounts(rows: seq<StatementRow>)
    ensures AllAccounts(Sections(rows)) == MapAccounts(Attached(rows))
    ensures SubtotalSum(Sections(rows)) == AmountSum(Attached(rows))
    decreases |rows|
  {
    if rows != [] {
      var init, r := rows[..|rows| - 1], rows[|rows| - 1];
      var s, a := Sections(init), Attached(init);
      SectionsAccounts(init);
      SectionsCount(init);
      if r.level == 1 {
        assert Sections(rows) == s + [OpenSection(r)];
        AllAccountsSnoc(s, OpenSection(r));
        assert OpenSection(r).accounts == [];
        assert Attached(rows) == a;
      } else if r.level == 3 && |s| > 0 {
        assert Sections(rows) == s[..|s| - 1] + [AddAccount(s[|s| - 1], r)];
        AllAccountsReplaceLast(s, r);
        assert Attached(rows) == a + [r];
        RowsSnoc(a, r);
      } else {
        assert Sections(rows) == s;
        assert Attached(rows) == a;
      }
    }
  }

  /** Rows before the first level-1 row leave no trace in the sections. */
  lemma {:induction false} LeadingRowsDropped(p: seq<StatementRow>, q: seq<StatementRow>)
    requires forall i :: 0 <= i < |p| ==> p[i].level != 1
    ensures Sections(p + q) == Sections(q)
    decreases |q|
  {
    if q == [] {
      assert p + q == p;
      NoHeadingNoSection(p);
    } else {
      assert (p + q)[..|p + q| - 1] == p + q[..|q| - 1];
      LeadingRowsDropped(p, q[..|q| - 1]);
    }
  }

  lemma {:induction false} NoHeadingNoSection(p: seq<StatementRow>)
    requires forall i :: 0 <= i < |p| ==> p[i].level != 1
    ensures Sections(p) == []
    decreases |p|
  {
    if p != [] {
      NoHeadingNoSection(p[..|p| - 1]);
    }
  }

  /** One more row of the scan: what it does to the sections, to the attached rows
      and to the asset sum. */
  lemma {:induction false} ScanStep(p: seq<StatementRow>, r: StatementRow)
    ensures r.level == 1 ==> Sections(p + [r]) == Sections(p) + [OpenSection(r)] && Attached(p + [r]) == Attached(p)
    ensures r.level == 3 && |Sections(p)| > 0 ==>
      Sections(p + [r]) == Sections(p)[..|Sections(p)| - 1] + [AddAccount(Sections(p)[|Sections(p)| - 1], r)] &&
      AssetSum(Attached(p + [r])) == AssetSum(Attached(p)) + (if r.accountType == Activo then r.amount else 0)
    ensures r.level != 1 && (r.level != 3 || |Sections(p)| == 0) ==>
      Sections(p + [r]) == Sections(p) && Attached(p + [r]) == Attached(p)
  {
    assert (p + [r])[..|p|] == p;
    SectionsCount(p);
    var a := Attached(p);
    if r.level == 3 && |Sections(p)| > 0 {
      assert Attached(p + [r]) == a + [r];
      assert (a + [r])[..|a|] == a;
    }
  }

  /** getBalanceSheet: the scan over the view rows. The statement total is the sum
      of the ACTIVO detail rows that lie in a section; any error gives the empty statement. */
  method GetBalanceSheet(period: Option<PeriodInfo>, balanceData: Option<seq<StatementRow>>)
    returns (st: Statement)
    ensures period.None? || balanceData.None? ==> st == EmptyStatement
    ensures period.Some? && balanceData.Some? ==>
      st == Statement(period.value.name, period.value.id, Sections(balanceData.value),
                      AssetSum(Attached(balanceData.value)))
  {
    if period.None? || balanceData.None? {
      return EmptyStatement;
    }
    var rows := balanceData.value;
    var sections: seq<Section> := [];
    var currentSection: Option<Section> := None;
    var totalAssets := 0;
    for i := 0 to |rows|
      invariant currentSection.None? ==> sections == [] && Sections(rows[..i]) == []
      invariant currentSection.Some? ==> sections + [currentSection.value] == Sections(rows[..i])
      invariant totalAssets == AssetSum(Attached(rows[..i]))
    {
      var item := rows[i];
      assert rows[..i + 1] == rows[..i] + [item];
      ScanStep(rows[..i], item);
      if item.level == 1 {
        if currentSection.Some? {
          sections := sections + [currentSection.value];
        }
        currentSection := Some(OpenSection(item));
      } else if currentSection.Some? && item.level == 3 {
        var s := Sections(rows[..i]);
        assert s[..|s| - 1] == sections;
        currentSection := Some(AddAccount(currentSection.value, item));
        if item.accountType == Activo {
          totalAssets := totalAssets + item.amount;
        }
      }
    }
    if currentSection.Some? {
      sections := sections + [currentSection.value];
    }
    assert rows[..|rows|] == rows;
    st := Statement(period.value.name, period.value.id, sections, totalAssets);
  }

  // ----- getIncomeStatement -----

  /** The detail (level-3) rows of one account type, in order. */
  function OfType(rows: seq<StatementRow>, accountType: string): seq<StatementRow> {
    if rows == [] then []
    else
      var r := rows[|rows| - 1];
      OfType(rows[..|rows| - 1], accountType) + (if r.level == 3 && r.accountType == accountType then [r] else [])
  }

  function TypeSum(rows: seq<StatementRow>, accountType: string): int {
    AmountSum(OfType(rows, accountType))
  }

  /** A section of the income statement, present only when it has accounts. */
  function SectionIfAny(code: int, name: string, accounts: seq<AccountBalance>): seq<Section> {
    if |accounts| > 0 then [Section(code, name, 1, accounts, BalanceSum(accounts))] else []
  }

  const IncomeName: string := "INGRESOS"
  const CostName: string := "COSTO DE VENTAS"
  const ExpenseName: string := "GASTOS DE OPERACIÓN"

  function IncomeSections(rows: seq<StatementRow>): seq<Section> {
    SectionIfAny(4000, IncomeName, MapAccounts(OfType(rows, Ingreso))) +
    SectionIfAny(5100, CostName, MapAccounts(OfType(rows, Costo))) +
    SectionIfAny(5200, ExpenseName, MapAccounts(OfType(rows, Gasto)))
  }

  function IncomeTotal(rows: seq<StatementRow>): int {
    TypeSum(rows, Ingreso) - (TypeSum(rows, Costo) + TypeSum(rows, Gasto))
  }

  predicate InBucket(r: StatementRow, accountType: string) {
    r.level == 3 && r.accountType == accountType
  }

  /** One more row extends the bucket of its own type, if it is a detail row, and no other. */
  lemma {:induction false} OfTypeStep(rows: seq<StatementRow>, r: StatementRow, accountType: string)
    ensures InBucket(r, accountType) ==>
      OfType(rows + [r], accountType) == OfType(rows, accountType) + [r] &&
      MapAccounts(OfType(rows + [r], accountType)) == MapAccounts(OfType(rows, accountType)) + [ToAccount(r)] &&
      TypeSum(rows + [r], accountType) == TypeSum(rows, accountType) + r.amount
    ensures !InBucket(r, accountType) ==> OfType(rows + [r], accountType) == OfType(rows, accountType)
  {
    assert (rows + [r])[..|rows|] == rows;
    if InBucket(r, accountType) {
      RowsSnoc(OfType(rows, accountType), r);
    } else {
      assert OfType(rows, accountType) + [] == OfType(rows, accountType);
    }
  }

  /** A row that is not a detail row of type INGRESO, COSTO or GASTO changes
      neither the sections nor the total. */
  lemma {:induction false} IncomeIgnores(rows: seq<StatementRow>, r: StatementRow)
    requires !InBucket(r, Ingreso) && !InBucket(r, Costo) && !InBucket(r, Gasto)
    ensures IncomeSections(rows + [r]) == IncomeSections(rows)
    ensures IncomeTotal(rows + [r]) == IncomeTotal(rows)
  {
    OfTypeStep(rows, r, Ingreso);
    OfTypeStep(rows, r, Costo);
    OfTypeStep(rows, r, Gasto);
  }

  /** Every section of the income statement has accounts, level 1 and the sum of
      its accounts' balances as subtotal. */
  lemma {:induction false} IncomeSectionsWellFormed(rows: seq<StatementRow>)
    ensures forall s :: s in IncomeSections(rows) ==>
      |s.accounts| > 0 && s.subtotal == BalanceSum(s.accounts) && s.level == 1
  {
    var i, c, g := MapAccounts(OfType(rows, Ingreso)), MapAccounts(OfType(rows, Costo)), MapAccounts(OfType(rows, Gasto));
    assert IncomeSections(rows) == SectionIfAny(4000, IncomeName, i) + SectionIfAny(5100, CostName, c) +
                                   SectionIfAny(5200, ExpenseName, g);
  }

  /** The total is the income subtotal minus the cost and expense subtotals, an
      absent section counting 0. */
  lemma {:induction false} IncomeTotalFromSections(rows: seq<StatementRow>)
    ensures IncomeTotal(rows) == SubtotalSum(SectionIfAny(4000, IncomeName, MapAccounts(OfType(rows, Ingreso)))) -
      (SubtotalSum(SectionIfAny(5100, CostName, MapAccounts(OfType(rows, Costo)))) +
       SubtotalSum(SectionIfAny(5200, ExpenseName, MapAccounts(OfType(rows, Gasto)))))
  {
    BalanceSumOfMap(OfType(rows, Ingreso));
    BalanceSumOfMap(OfType(rows, Costo));
    BalanceSumOfMap(OfType(rows, Gasto));
    SubtotalSumOfOptional(4000, IncomeName, MapAccounts(OfType(rows, Ingreso)));
    SubtotalSumOfOptional(5100, CostName, MapAccounts(OfType(rows, Costo)));
    SubtotalSumOfOptional(5200, ExpenseName, MapAccounts(OfType(rows, Gasto)));
  }

  lemma {:induction false} SubtotalSumOfOptional(code: int, name: string, accounts: seq<AccountBalance>)
    ensures SubtotalSum(SectionIfAny(code, name, accounts)) == BalanceSum(accounts)
  {
    if |accounts| > 0 {
      var ss := SectionIfAny(code, name, accounts);
      assert ss[..0] == [];
    }
  }

  /** The state of the bucketing loop of getIncomeStatement. */
  datatype Buckets = Buckets(
    ingresos: seq<AccountBalance>, costos: seq<AccountBalance>, gastos: seq<AccountBalance>,
    totalIncome: int, totalExpenses: int)

  /** One iteration: a detail row goes to the bucket of its type; COSTO and GASTO
      both count as expenses. */
  function AddRow(b: Buckets, r: StatementRow): Buckets {
    if r.level != 3 then b
    else if r.accountType == Ingreso then
      b.(ingresos := b.ingresos + [ToAccount(r)], totalIncome := b.totalIncome + r.amount)
    else if r.accountType == Costo then
      b.(costos := b.costos + [ToAccount(r)], totalExpenses := b.totalExpenses + r.amount)
    else if r.accountType == Gasto then
      b.(gastos := b.gastos + [ToAccount(r)], totalExpenses := b.totalExpenses + r.amount)
    else b
  }

  /** Each bucket grows by the row exactly when the row is a detail row of its type. */
  lemma AddRowFields(b: Buckets, r: StatementRow)
    ensures AddRow(b, r).ingresos == if InBucket(r, Ingreso) then b.ingresos + [ToAccount(r)] else b.ingresos
    ensures AddRow(b, r).costos == if InBucket(r, Costo) then b.costos + [ToAccount(r)] else b.costos
    ensures AddRow(b, r).gastos == if InBucket(r, Gasto) then b.gastos + [ToAccount(r)] else b.gastos
    ensures AddRow(b, r).totalIncome == b.totalIncome + if InBucket(r, Ingreso) then r.amount else 0
    ensures AddRow(b, r).totalExpenses == b.totalExpenses + if InBucket(r, Costo) || InBucket(r, Gasto) then r.amount else 0
  {
    assert Ingreso[0] != Costo[0] && Ingreso[0] != Gasto[0] && Costo[0] != Gasto[0];
  }

  function BucketsOf(rows: seq<StatementRow>): Buckets
    decreases |rows|
  {
    if rows == [] then Buckets([], [], [], 0, 0) else AddRow(BucketsOf(rows[..|rows| - 1]), rows[|rows| - 1])
  }

  /** After any prefix of rows, each bucket holds that type's detail rows in order,
      and the two totals are the sums of their types. */
  lemma {:induction false} BucketsMeaning(rows: seq<StatementRow>)
    ensures BucketsOf(rows).ingresos == MapAccounts(OfType(rows, Ingreso))
    ensures BucketsOf(rows).costos == MapAccounts(OfType(rows, Costo))
    ensures BucketsOf(rows).gastos == MapAccounts(OfType(rows, Gasto))
    ensures BucketsOf(rows).totalIncome == TypeSum(rows, Ingreso)
    ensures BucketsOf(rows).totalExpenses == TypeSum(rows, Costo) + TypeSum(rows, Gasto)
  {
    IncomeBucketMeaning(rows);
    CostBucketMeaning(rows);
    ExpenseBucketMeaning(rows);
  }

  lemma {:induction false} IncomeBucketMeaning(rows: seq<StatementRow>)
    ensures BucketsOf(rows).ingresos == MapAccounts(OfType(rows, Ingreso))
    ensures BucketsOf(rows).totalIncome == TypeSum(rows, Ingreso)
    decreases |rows|
  {
    if rows != [] {
      var p, r := rows[..|rows| - 1], rows[|rows| - 1];
      assert rows == p + [r];
      IncomeBucketMeaning(p);
      AddRowFields(BucketsOf(p), r);
      OfTypeStep(p, r, Ingreso);
    }
  }

  lemma {:induction false} CostBucketMeaning(rows: seq<StatementRow>)
    ensures BucketsOf(rows).costos == MapAccounts(OfType(rows, Costo))
    decreases |rows|
  {
    if rows != [] {
      var p, r := rows[..|rows| - 1], rows[|rows| - 1];
      assert rows == p + [r];
      CostBucketMeaning(p);
      AddRowFields(BucketsOf(p), r);
      OfTypeStep(p, r, Costo);
    }
  }

  lemma {:induction false} ExpenseBucketMeaning(rows: seq<StatementRow>)
    ensures BucketsOf(rows).gastos == MapAccounts(OfType(rows, Gasto))
    ensures BucketsOf(rows).totalExpenses == TypeSum(rows, Costo) + TypeSum(rows, Gasto)
    decreases |rows|
  {
    if rows != [] {
      var p, r := rows[..|rows| - 1], rows[|rows| - 1];
      assert rows == p + [r];
      ExpenseBucketMeaning(p);
      AddRowFields(BucketsOf(p), r);
      OfTypeStep(p, r, Costo);
      OfTypeStep(p, r, Gasto);
    }
  }

  /** The section pushes at the end of getIncomeStatement: each bucket that has
      accounts becomes a section, in the order income, cost, expense. */
  method IncomeSectionsOf(ingresos: seq<AccountBalance>, costos: seq<AccountBalance>, gastos: seq<AccountBalance>)
    returns (sections: seq<Section>)
    ensures sections == SectionIfAny(4000, IncomeName, ingresos) + SectionIfAny(5100, CostName, costos) +
                        SectionIfAny(5200, ExpenseName, gastos)
  {
    sections := [];
    if |ingresos| > 0 {
      sections := sections + [Section(4000, IncomeName, 1, ingresos, BalanceSum(ingresos))];
    }
    if |costos| > 0 {
      sections := sections + [Section(5100, CostName, 1, costos, BalanceSum(costos))];
    }
    if |gastos| > 0 {
      sections := sections + [Section(5200, ExpenseName, 1, gastos, BalanceSum(gastos))];
    }
  }

  /** getIncomeStatement: bucket the detail rows by type, then emit the non-empty sections. */
  method GetIncomeStatement(period: Option<PeriodInfo>, incomeData: Option<seq<StatementRow>>)
    returns (st: Statement)
    ensures period.None? || incomeData.None? ==> st == EmptyStatement
    ensures period.Some? && incomeData.Some? ==>
      st == Statement(period.value.name, period.value.id, IncomeSections(incomeData.value),
                      IncomeTotal(incomeData.value))
  {
    if period.None? || incomeData.None? {
      return EmptyStatement;
    }
    var rows := incomeData.value;
    var ingresos: seq<AccountBalance> := [];
    var costos: seq<AccountBalance> := [];
    var gastos: seq<AccountBalance> := [];
    var totalIncome := 0;
    var totalExpenses := 0;
    for i := 0 to |rows|
      invariant Buckets(ingresos, costos, gastos, totalIncome, totalExpenses) == BucketsOf(rows[..i])
    {
      var item := rows[i];
      assert rows[..i + 1][..i] == rows[..i];
      assert BucketsOf(rows[..i + 1]) == AddRow(BucketsOf(rows[..i]), item);
      if item.level == 3 {
        var account := ToAccount(item);
        if item.accountType == Ingreso {
          ingresos := ingresos + [account];
          totalIncome := totalIncome + item.amount;
        } else if item.accountType == Costo {
          costos := costos + [account];
          totalExpenses := totalExpenses + item.amount;
        } else if item.accountType == Gasto {
          gastos := gastos + [account];
          totalExpenses := totalExpenses + item.amount;
        }
      }
    }
    assert rows[..|rows|] == rows;
    BucketsMeaning(rows);
    var sections := IncomeSectionsOf(ingresos, costos, gastos);
    st := Statement(period.value.name, period.value.id, sections, totalIncome - totalExpenses);
  }

  // ----- getTAccountMovements / getAllTAccounts -----

  /** A row of the t_accounts view; missing numbers are None. */
  datatype TAccountRow = TAccountRow(
    code: int, transactionDate: string, description: string, referenceNumber: Option<string>,
    debit: Option<int>, credit: Option<int>, accountName: string, runningBalance: Option<int>)

  datatype TAccountEntry = TAccountEntry(
    id: string, date: string, description: string, referenceNumber: Option<string>,
    debit: int, credit: int, accountCode: int, accountName: string, runningBalance: int)

  /** `Number(x) || 0`: a missing number reads as 0, a present one is kept. */
  function OrZero(x: Option<int>): (r: int)
    ensures x.None? ==> r == 0
    ensures x.Some? ==> r == x.value
  {
    if x.Some? then x.value else 0
  }

  /** The entry built for a view row: its id is the code and the date joined by "-",
      its code, name, date, description and reference are the row's, and each number
      is the row's or 0 when missing. */
  function ToEntry(r: TAccountRow): (e: TAccountEntry)
    ensures e.id == IntToString(r.code) + "-" + r.transactionDate
    ensures e.accountCode == r.code && e.accountName == r.accountName
    ensures e.date == r.transactionDate && e.description == r.description && e.referenceNumber == r.referenceNumber
    ensures e.debit == OrZero(r.debit) && e.credit == OrZero(r.credit) && e.runningBalance == OrZero(r.runningBalance)
  {
    TAccountEntry(IntToString(r.code) + "-" + r.transactionDate, r.transactionDate, r.description,
                  r.referenceNumber, OrZero(r.debit), OrZero(r.credit), r.code, r.accountName,
                  OrZero(r.runningBalance))
  }

  /** The view rows of one account, in order. */
  function RowsOfAccount(rows: seq<TAccountRow>, code: int): (r: seq<TAccountRow>)
    ensures forall i :: 0 <= i < |r| ==> r[i].code == code
    ensures |r| <= |rows|
  {
    if rows == [] then []
    else RowsOfAccount(rows[..|rows| - 1], code) + (if rows[|rows| - 1].code == code then [rows[|rows| - 1]] else [])
  }

  function MapEntries(rows: seq<TAccountRow>): (r: seq<TAccountEntry>)
    ensures |r| == |rows|
    ensures forall i :: 0 <= i < |rows| ==> r[i] == ToEntry(rows[i])
  {
    seq(|rows|, i requires 0 <= i < |rows| => ToEntry(rows[i]))
  }

  /** getTAccountMovements: the entries of one account, in view order; [] on error. */
  function TAccountMovements(rows: Option<seq<TAccountRow>>, code: int): (r: seq<TAccountEntry>)
    ensures rows.None? ==> r == []
    ensures forall i :: 0 <= i < |r| ==> r[i].accountCode == code
    ensures rows.Some? ==> |r| == |RowsOfAccount(rows.value, code)|
    ensures rows.Some? ==> forall i :: 0 <= i < |r| ==> r[i] == ToEntry(RowsOfAccount(rows.value, code)[i])
  {
    if rows.None? then [] else MapEntries(RowsOfAccount(rows.value, code))
  }

  /** The rows of an account are exactly the view rows carrying its code. */
  lemma {:induction false} RowsOfAccountMembers(rows: seq<TAccountRow>, code: int)
    ensures forall x :: x in RowsOfAccount(rows, code) <==> x in rows && x.code == code
    decreases |rows|
  {
    if rows != [] {
      var p := rows[..|rows| - 1];
      RowsOfAccountMembers(p, code);
      assert rows == p + [rows[|rows| - 1]];
    }
  }

  /** Selecting an account's rows keeps the view order. */
  lemma {:induction false} RowsOfAccountAppend(a: seq<TAccountRow>, b: seq<TAccountRow>, code: int)
    ensures RowsOfAccount(a + b, code) == RowsOfAccount(a, code) + RowsOfAccount(b, code)
    decreases |b|
  {
    if b == [] {
      assert a + b == a;
    } else {
      var b', x := b[..|b| - 1], b[|b| - 1];
      assert (a + b)[..|a + b| - 1] == a + b' && (a + b)[|a + b| - 1] == x;
      RowsOfAccountAppend(a, b', code);
      var t := if x.code == code then [x] else [];
      assert (RowsOfAccount(a, code) + RowsOfAccount(b', code)) + t == RowsOfAccount(a, code) + (RowsOfAccount(b', code) + t);
    }
  }

  /** The movements of an account are the entries of exactly its view rows. */
  lemma TAccountMovementsMembers(rows: seq<TAccountRow>, code: int)
    ensures forall e :: e in TAccountMovements(Some(rows), code) <==> exists x :: x in rows && x.code == code && e == ToEntry(x)
  {
    RowsOfAccountMembers(rows, code);
    var rs := RowsOfAccount(rows, code);
    var ms := TAccountMovements(Some(rows), code);
    forall e | e in ms
      ensures exists x :: x in rows && x.code == code && e == ToEntry(x)
    {
      var i :| 0 <= i < |ms| && ms[i] == e;
      assert rs[i] in rs;
    }
    forall e | exists x :: x in rows && x.code == code && e == ToEntry(x)
      ensures e in ms
    {
      var x :| x in rows && x.code == code && e == ToEntry(x);
      var i :| 0 <= i < |rs| && rs[i] == x;
      assert ms[i] == e;
    }
  }

  /** The movements follow the view order: those of a concatenation of rows are the
      movements of the first part followed by those of the second. */
  lemma TAccountMovementsAppend(a: seq<TAccountRow>, b: seq<TAccountRow>, code: int)
    ensures TAccountMovements(Some(a + b), code) == TAccountMovements(Some(a), code) + TAccountMovements(Some(b), code)
  {
    RowsOfAccountAppend(a, b, code);
    var ra, rb := RowsOfAccount(a, code), RowsOfAccount(b, code);
    var ma, mb := TAccountMovements(Some(a), code), TAccountMovements(Some(b), code);
    var mab := TAccountMovements(Some(a + b), code);
    assert |mab| == |ma + mb|;
    forall i | 0 <= i < |mab|
      ensures mab[i] == (ma + mb)[i]
    {
      if i < |ra| {
        assert (ra + rb)[i] == ra[i];
      } else {
        assert (ra + rb)[i] == rb[i - |ra|];
      }
    }
  }

  /** The account codes that occur in the rows. */
  function Codes(rows: seq<TAccountRow>): set<int> {
    set i | 0 <= i < |rows| :: rows[i].code
  }

  lemma {:induction false} RowsOfAccountNonEmpty(rows: seq<TAccountRow>, code: int)
    requires code in Codes(rows)
    ensures |RowsOfAccount(rows, code)| > 0
    decreases |rows|
  {
    var init := rows[..|rows| - 1];
    if rows[|rows| - 1].code != code {
      var i :| 0 <= i < |rows| && rows[i].code == code;
      assert init[i] == rows[i];
      RowsOfAccountNonEmpty(init, code);
    }
  }

  /** getAllTAccounts: group the entries by account code; {} on error. */
  method GetAllTAccounts(data: Option<seq<TAccountRow>>) returns (grouped: map<int, seq<TAccountEntry>>)
    ensures data.None? ==> grouped == map[]
    ensures data.Some? ==> grouped == Groups(data.value)
  {
    if data.None? {
      return map[];
    }
    var rows := data.value;
    grouped := map[];
    for i := 0 to |rows|
      invariant grouped == Groups(rows[..i])
    {
      var item := rows[i];
      assert rows[..i + 1][..i] == rows[..i];
      var entries := if item.code in grouped then grouped[item.code] else [];
      grouped := grouped[item.code := entries + [ToEntry(item)]];
    }
    assert rows[..|rows|] == rows;
  }

  /** Every code of the rows is a key of the grouping and nothing else is; every
      group is the in-order list of that account's entries, the same list
      getTAccountMovements gives for that code, and no group is empty. */
  lemma {:induction false} GroupsMeaning(rows: seq<TAccountRow>)
    ensures Groups(rows).Keys == Codes(rows)
    ensures forall c :: c in Groups(rows) ==>
      Groups(rows)[c] == TAccountMovements(Some(rows), c) && |Groups(rows)[c]| > 0
  {
    GroupsKeys(rows);
    GroupsValues(rows);
    forall c | c in Codes(rows)
      ensures |RowsOfAccount(rows, c)| > 0
    {
      RowsOfAccountNonEmpty(rows, c);
    }
  }

  lemma {:induction false} GroupsKeys(rows: seq<TAccountRow>)
    ensures Groups(rows).Keys == Codes(rows)
    decreases |rows|
  {
    if rows == [] {
      assert Codes(rows) == {};
    } else {
      var p, r := rows[..|rows| - 1], rows[|rows| - 1];
      assert rows == p + [r];
      GroupsKeys(p);
      CodesStep(p, r);
    }
  }

  lemma {:induction false} GroupsValues(rows: seq<TAccountRow>)
    ensures forall c :: c in Groups(rows) ==> Groups(rows)[c] == MapEntries(RowsOfAccount(rows, c))
    decreases |rows|
  {
    if rows != [] {
      var p, r := rows[..|rows| - 1], rows[|rows| - 1];
      assert rows == p + [r];
      GroupsValues(p);
      GroupsKeys(p);
      forall c | c in Groups(rows)
        ensures Groups(rows)[c] == MapEntries(RowsOfAccount(rows, c))
      {
        GroupAt(p, r, c);
      }
    }
  }

  /** The groups built so far: each row appends its entry to its account's group,
      creating the group on the first row of that account. */
  function Groups(rows: seq<TAccountRow>): map<int, seq<TAccountEntry>>
    decreases |rows|
  {
    if rows == [] then map[]
    else
      var g, r := Groups(rows[..|rows| - 1]), rows[|rows| - 1];
      g[r.code := (if r.code in g then g[r.code] else []) + [ToEntry(r)]]
  }

  lemma {:induction false} RowsOfAccountStep(rows: seq<TAccountRow>, r: TAccountRow, c: int)
    ensures RowsOfAccount(rows + [r], c) == RowsOfAccount(rows, c) + (if r.code == c then [r] else [])
    ensures MapEntries(RowsOfAccount(rows + [r], c)) ==
      MapEntries(RowsOfAccount(rows, c)) + (if r.code == c then [ToEntry(r)] else [])
  {
    assert (rows + [r])[..|rows|] == rows;
    var x := RowsOfAccount(rows, c);
    if r.code == c {
      assert (x + [r])[..|x|] == x;
    } else {
      assert x + [] == x;
    }
  }

  lemma {:induction false} CodesStep(rows: seq<TAccountRow>, r: TAccountRow)
    ensures Codes(rows + [r]) == Codes(rows) + {r.code}
  {
    var rows' := rows + [r];
    assert forall j :: 0 <= j < |rows| ==> rows'[j] == rows[j];
    assert rows'[|rows|] == r;
  }

  /** The group of one code after one more row. */
  lemma {:induction false} GroupAt(rows: seq<TAccountRow>, r: TAccountRow, c: int)
    requires c in Codes(rows) || c == r.code
    ensures MapEntries(RowsOfAccount(rows + [r], c)) ==
      if c == r.code then (if c in Codes(rows) then MapEntries(RowsOfAccount(rows, c)) else []) + [ToEntry(r)]
      else MapEntries(RowsOfAccount(rows, c))
  {
    RowsOfAccountStep(rows, r, c);
    if c == r.code && c !in Codes(rows) && |RowsOfAccount(rows, c)| > 0 {
      RowsOfAccountMember(rows, c);
    }
  }

  /** A code that has rows occurs in the rows. */
  lemma {:induction false} RowsOfAccountMember(rows: seq<TAccountRow>, code: int)
    requires |RowsOfAccount(rows, code)| > 0
    ensures code in Codes(rows)
    decreases |rows|
  {
    var init := rows[..|rows| - 1];
    if rows[|rows| - 1].code != code {
      RowsOfAccountMember(init, code);
      var i :| 0 <= i < |init| && init[i].code == code;
      assert rows[i] == init[i];
    }
  }

  // ----- getExecutiveSummary -----

  /** A row of account_balances as the summary reads it; a missing balance is None. */
  datatype BalanceEntry = BalanceEntry(code: int, accountType: string, balance: Option<int>)

  datatype Totals = Totals(
    assets: int, liabilities: int, equity: int, revenue: int, expenses: int,
    currentAssets: int, currentLiabilities: int)

  datatype Metrics = Metrics(
    netIncome: int, currentRatio: real, workingCapital: int,
    debtToEquity: real, returnOnEquity: real, profitMargin: real)

  datatype ExecutiveSummary = ExecutiveSummary(period: string, totals: Totals, metrics: Metrics)

  /** The sum of the balances of one type whose code lies in [lo, hi). */
  function RangeTotal(es: seq<BalanceEntry>, accountType: string, lo: int, hi: int): int {
    if es == [] then 0
    else
      var e := es[|es| - 1];
      RangeTotal(es[..|es| - 1], accountType, lo, hi) +
        (if e.accountType == accountType && lo <= e.code < hi then OrZero(e.balance) else 0)
  }

  /** The sum of the balances of one type. */
  function TypeTotal(es: seq<BalanceEntry>, accountType: string): int {
    if es == [] then 0
    else
      var e := es[|es| - 1];
      TypeTotal(es[..|es| - 1], accountType) + (if e.accountType == accountType then OrZero(e.balance) else 0)
  }

  /** The totals the summary accumulates: one per type, GASTO and COSTO together as
      expenses, and the current part of assets [1100, 1200) and liabilities [2100, 2200). */
  function SummaryTotals(es: seq<BalanceEntry>): Totals {
    Totals(TypeTotal(es, Activo), TypeTotal(es, Pasivo), TypeTotal(es, Capital), TypeTotal(es, Ingreso),
           TypeTotal(es, Gasto) + TypeTotal(es, Costo),
           RangeTotal(es, Activo, 1100, 1200), RangeTotal(es, Pasivo, 2100, 2200))
  }

  /** a / b, or 0 when b is not positive. */
  function GuardedRatio(a: int, b: int): (r: real)
    ensures b <= 0 ==> r == 0.0
    ensures b > 0 ==> r * (b as real) == a as real
  {
    if b > 0 then a as real / b as real else 0.0
  }

  function SummaryMetrics(t: Totals): (m: Metrics)
    ensures m.netIncome == t.revenue - t.expenses
    ensures m.workingCapital == t.currentAssets - t.currentLiabilities
    ensures t.currentLiabilities <= 0 ==> m.currentRatio == 0.0
    ensures t.currentLiabilities > 0 ==> m.currentRatio * (t.currentLiabilities as real) == t.currentAssets as real
    ensures t.equity <= 0 ==> m.debtToEquity == 0.0 && m.returnOnEquity == 0.0
    ensures t.equity > 0 ==> m.debtToEquity * (t.equity as real) == t.liabilities as real
    ensures t.equity > 0 ==> m.returnOnEquity * (t.equity as real) == (m.netIncome * 100) as real
    ensures t.revenue <= 0 ==> m.profitMargin == 0.0
    ensures t.revenue > 0 ==> m.profitMargin * (t.revenue as real) == (m.netIncome * 100) as real
  {
    var netIncome := t.revenue - t.expenses;
    Metrics(netIncome, GuardedRatio(t.currentAssets, t.currentLiabilities),
            t.currentAssets - t.currentLiabilities,
            GuardedRatio(t.liabilities, t.equity),
            GuardedRatio(netIncome, t.equity) * 100.0,
            GuardedRatio(netIncome, t.revenue) * 100.0)
  }

  /** The current part is part of its type: with non-negative balances it never exceeds the type total. */
  lemma {:induction false} RangeWithinType(es: seq<BalanceEntry>, accountType: string, lo: int, hi: int)
    requires forall i :: 0 <= i < |es| ==> OrZero(es[i].balance) >= 0
    ensures 0 <= RangeTotal(es, accountType, lo, hi) <= TypeTotal(es, accountType)
    decreases |es|
  {
    if es != [] {
      var init := es[..|es| - 1];
      assert forall i :: 0 <= i < |init| ==> init[i] == es[i];
      RangeWithinType(init, accountType, lo, hi);
    }
  }

  /** No code outside [lo, hi) contributes to the current part; in particular six-digit
      codes never count as current. */
  lemma {:induction false} RangeTotalOutside(es: seq<BalanceEntry>, accountType: string, lo: int, hi: int)
    requires forall i :: 0 <= i < |es| ==> !(lo <= es[i].code < hi)
    ensures RangeTotal(es, accountType, lo, hi) == 0
    decreases |es|
  {
    if es != [] {
      var init := es[..|es| - 1];
      assert forall i :: 0 <= i < |init| ==> init[i] == es[i];
      RangeTotalOutside(init, accountType, lo, hi);
    }
  }

  /** getExecutiveSummary. `balancesOk` is the outcome of the first query, whose rows
      are not used; `detailed` the rows of the second query, whose error is not checked
      (None then yields all-zero totals). A missing period or a failing first query gives null. */
  method GetExecutiveSummary(period: Option<PeriodInfo>, balancesOk: bool, detailed: Option<seq<BalanceEntry>>)
    returns (r: Option<ExecutiveSummary>)
    ensures period.None? || !balancesOk ==> r == None
    ensures period.Some? && balancesOk ==>
      var es := if detailed.Some? then detailed.value else [];
      r == Some(ExecutiveSummary(period.value.name, SummaryTotals(es), SummaryMetrics(SummaryTotals(es))))
  {
    if period.None? || !balancesOk {
      return None;
    }
    var es := if detailed.Some? then detailed.value else [];
    var totals := Totals(0, 0, 0, 0, 0, 0, 0);
    for i := 0 to |es|
      invariant totals == SummaryTotals(es[..i])
    {
      var account := es[i];
      assert es[..i + 1][..i] == es[..i];
      var balance := OrZero(account.balance);
      if account.accountType == Activo {
        totals := totals.(assets := totals.assets + balance);
        if account.code >= 1100 && account.code < 1200 {
          totals := totals.(currentAssets := totals.currentAssets + balance);
        }
      } else if account.accountType == Pasivo {
        totals := totals.(liabilities := totals.liabilities + balance);
        if account.code >= 2100 && account.code < 2200 {
          totals := totals.(currentLiabilities := totals.currentLiabilities + balance);
        }
      } else if account.accountType == Capital {
        totals := totals.(equity := totals.equity + balance);
      } else if account.accountType == Ingreso {
        totals := totals.(revenue := totals.revenue + balance);
      } else if account.accountType == Gasto || account.accountType == Costo {
        totals := totals.(expenses := totals.expenses + balance);
      }
    }
    assert es[..|es|] == es;
    r := Some(ExecutiveSummary(period.value.name, totals, SummaryMetrics(totals)));
  }
}
