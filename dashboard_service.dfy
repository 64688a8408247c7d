/** Dashboard aggregation (lib/services/dashboard-service.ts): account type from the
    leading digit of a six-digit code, the per-type metrics, the summary of accounts
    with a balance, the tagging of recent transactions and the six-month chart. */
module DashboardService {
  import opened Common

  /** The strings `getAccountType` returns. */
  datatype AccountKind = Asset | Liability | Equity | Revenue | Expense | Other

  /** `getAccountType`: floor(code / 100000) picks the kind; Dafny's `/` is the floor
      for a positive divisor, negative codes included. */
  function AccountType(code: int): (k: AccountKind)
    ensures k == Asset <==> 100000 <= code < 200000
    ensures k == Liability <==> 200000 <= code < 300000
    ensures k == Equity <==> 300000 <= code < 400000
    ensures k == Revenue <==> 400000 <= code < 500000
    ensures k == Expense <==> 500000 <= code < 600000
    ensures k == Other <==> code < 100000 || 600000 <= code
  {
    var firstDigit := code / 100000;
    if firstDigit == 1 then Asset
    else if firstDigit == 2 then Liability
    else if firstDigit == 3 then Equity
    else if firstDigit == 4 then Revenue
    else if firstDigit == 5 then Expense
    else Other
  }

  /** The fixed name table of `getAccountName`. */
  const AccountNames: map<int, string> := map[
    110101 := "Caja", 110201 := "Bancos", 110301 := "Inversiones temporales",
    110401 := "Clientes", 110501 := "Documentos por cobrar", 110601 := "Deudores diversos",
    210101 := "Proveedores", 210201 := "Documentos por pagar", 210301 := "Acreedores diversos",
    310101 := "Capital social", 310201 := "Reserva legal",
    410101 := "Ventas", 410201 := "Productos financieros",
    510101 := "Costo de ventas", 510201 := "Gastos de venta",
    510301 := "Gastos de administración", 510401 := "Gastos financieros"]

  const FallbackPrefix: string := "Cuenta "

  /** `getAccountName`: the table entry when it is present and non-empty (`||`),
      otherwise "Cuenta <code>". */
  function AccountName(code: int): (name: string)
    ensures code in AccountNames ==> name == AccountNames[code]
    ensures code !in AccountNames ==> name == FallbackPrefix + IntToString(code)
  {
    if code in AccountNames && AccountNames[code] != "" then AccountNames[code]
    else FallbackPrefix + IntToString(code)
  }

  /** Every code of the name table has a kind other than "other", and its leading digit
      agrees with the group the table lists it under. */
  lemma NamedCodesAreClassified(code: int)
    requires code in AccountNames
    ensures AccountType(code) != Other
    ensures AccountNames[code] == "Costo de ventas" ==> AccountType(code) == Expense
  {
  }

  /** A detail row as the three dashboard queries return it; `code` is missing when the
      account join gives none. Amounts are in cents. */
  datatype Detail = Detail(debit: int, credit: int, code: Option<int>)

  /** `if (!code) return;`: a missing code or code 0 skips the row. */
  function CodeOf(d: Detail): Option<int> {
    if d.code.Some? && d.code.value != 0 then d.code else None
  }

  predicate Classified(d: Detail) {
    CodeOf(d).Some? && AccountType(CodeOf(d).value) != Other
  }

  // ---------------------------------------------------------------- metrics

  datatype DashboardMetrics = DashboardMetrics(
    totalAssets: int, totalLiabilities: int, monthlyRevenue: int, monthlyExpenses: int,
    assetChange: int, liabilityChange: int, revenueChange: int, expenseChange: int)

  const ZeroMetrics: DashboardMetrics := DashboardMetrics(0, 0, 0, 0, 0, 0, 0, 0)

  /** The effect of one detail row on the running totals (the `switch` of the loop). */
  function AddDetail(m: DashboardMetrics, d: Detail): DashboardMetrics {
    if CodeOf(d).None? then m
    else
      match AccountType(CodeOf(d).value)
      case Asset => m.(totalAssets := m.totalAssets + (d.debit - d.credit))
      case Liability => m.(totalLiabilities := m.totalLiabilities + (d.credit - d.debit))
      case Equity => m.(totalLiabilities := m.totalLiabilities + (d.credit - d.debit))
      case Revenue => m.(monthlyRevenue := m.monthlyRevenue + (d.credit - d.debit))
      case Expense => m.(monthlyExpenses := m.monthlyExpenses + (d.debit - d.credit))
      case Other => m
  }

  /** The metrics of a sequence of rows, folded from the left as the loop does. */
  function MetricsOf(rows: seq<Detail>): (m: DashboardMetrics)
    ensures m.assetChange == 0 && m.liabilityChange == 0
    ensures m.revenueChange == 0 && m.expenseChange == 0
  {
    if rows == [] then ZeroMetrics else AddDetail(MetricsOf(rows[..|rows| - 1]), rows[|rows| - 1])
  }

  function Plus(a: DashboardMetrics, b: DashboardMetrics): DashboardMetrics {
    DashboardMetrics(
      a.totalAssets + b.totalAssets, a.totalLiabilities + b.totalLiabilities,
      a.monthlyRevenue + b.monthlyRevenue, a.monthlyExpenses + b.monthlyExpenses,
      a.assetChange + b.assetChange, a.liabilityChange + b.liabilityChange,
      a.revenueChange + b.revenueChange, a.expenseChange + b.expenseChange)
  }

  lemma AddDetailPlus(a: DashboardMetrics, b: DashboardMetrics, d: Detail)
    ensures AddDetail(Plus(a, b), d) == Plus(a, AddDetail(b, d))
  {
    if CodeOf(d).Some? {
      match AccountType(CodeOf(d).value)
      case Asset =>
      case Liability =>
      case Equity =>
      case Revenue =>
      case Expense =>
      case Other =>
    }
  }

  /** The metrics are additive: the order in which the query returns rows in two
      batches does not matter. */
  lemma {:induction false} MetricsAppend(a: seq<Detail>, b: seq<Detail>)
    ensures MetricsOf(a + b) == Plus(MetricsOf(a), MetricsOf(b))
    decreases |b|
  {
    if b == [] {
      assert a + b == a;
    } else {
      var b' := b[..|b| - 1];
      assert (a + b)[..|a + b| - 1] == a + b';
      MetricsAppend(a, b');
      AddDetailPlus(MetricsOf(a), MetricsOf(b'), b[|b| - 1]);
    }
  }

  lemma {:induction false} MetricsCommute(a: seq<Detail>, b: seq<Detail>)
    ensures MetricsOf(a + b) == MetricsOf(b + a)
  {
    MetricsAppend(a, b);
    MetricsAppend(b, a);
  }

  /** Rows without a code, with code 0 or with an "other" code leave every total alone. */
  lemma {:induction false} MetricsIgnoreUnclassified(rows: seq<Detail>, d: Detail)
    requires !Classified(d)
    ensures MetricsOf(rows + [d]) == MetricsOf(rows)
  {
    assert (rows + [d])[..|rows|] == rows;
  }

  function DebitSum(rows: seq<Detail>): int {
    if rows == [] then 0 else DebitSum(rows[..|rows| - 1]) + rows[|rows| - 1].debit
  }

  function CreditSum(rows: seq<Detail>): int {
    if rows == [] then 0 else CreditSum(rows[..|rows| - 1]) + rows[|rows| - 1].credit
  }

  predicate AllClassified(rows: seq<Detail>) {
    forall i :: 0 <= i < |rows| ==> Classified(rows[i])
  }

  lemma {:induction false} MetricsNet(rows: seq<Detail>)
    requires AllClassified(rows)
    ensures var m := MetricsOf(rows);
      m.totalAssets - m.totalLiabilities - m.monthlyRevenue + m.monthlyExpenses
        == DebitSum(rows) - CreditSum(rows)
  {
    if rows != [] {
      var p := rows[..|rows| - 1];
      assert AllClassified(p) by {
        forall i | 0 <= i < |p| ensures Classified(p[i]) {
          assert p[i] == rows[i];
        }
      }
      assert Classified(rows[|rows| - 1]);
      MetricsNet(p);
    }
  }

  /** The accounting identity behind the signs: when every row is classified and the rows
      balance, assets minus liabilities-and-equity equals revenue minus expenses. */
  lemma AccountingIdentity(rows: seq<Detail>)
    requires AllClassified(rows)
    requires DebitSum(rows) == CreditSum(rows)
    ensures var m := MetricsOf(rows);
      m.totalAssets - m.totalLiabilities == m.monthlyRevenue - m.monthlyExpenses
  {
    MetricsNet(rows);
  }

  /** `getDashboardMetrics`: a failed query (or a missing user) gives all zeros; a missing
      result set is no rows. */
  method GetDashboardMetrics(queryOk: bool, data: Option<seq<Detail>>) returns (m: DashboardMetrics)
    ensures !queryOk ==> m == ZeroMetrics
    ensures queryOk ==> m == MetricsOf(if data.Some? then data.value else [])
  {
    if !queryOk {
      return ZeroMetrics;
    }
    var rows := if data.Some? then data.value else [];
    var totalAssets, totalLiabilities, monthlyRevenue, monthlyExpenses := 0, 0, 0, 0;
    for i := 0 to |rows|
      invariant MetricsOf(rows[..i])
        == DashboardMetrics(totalAssets, totalLiabilities, monthlyRevenue, monthlyExpenses, 0, 0, 0, 0)
    {
      var d := rows[i];
      assert rows[..i + 1][..i] == rows[..i];
      var code := CodeOf(d);
      if code.Some? {
        var accountType := AccountType(code.value);
        match accountType {
          case Asset => totalAssets := totalAssets + (d.debit - d.credit);
          case Liability => totalLiabilities := totalLiabilities + (d.credit - d.debit);
          case Equity => totalLiabilities := totalLiabilities + (d.credit - d.debit);
          case Revenue => monthlyRevenue := monthlyRevenue + (d.credit - d.debit);
          case Expense => monthlyExpenses := monthlyExpenses + (d.debit - d.credit);
          case Other =>
        }
      }
    }
    assert rows[..|rows|] == rows;
    m := DashboardMetrics(totalAssets, totalLiabilities, monthlyRevenue, monthlyExpenses, 0, 0, 0, 0);
  }

  // ---------------------------------------------------------------- recent transactions

  /** A transaction of the recent list with the account codes of its details, in order. */
  datatype RecentInput = RecentInput(
    id: string, date: string, description: string, amount: int, detailCodes: seq<Option<int>>)

  datatype Tag = IncomeTag | ExpenseTag

  datatype RecentTransaction = RecentTransaction(
    id: string, date: string, description: string, amount: int,
    tag: Tag, accountName: string, accountCode: int)

  /** `firstDetail?.accounts?.code || 0`. */
  function FirstCode(t: RecentInput): int {
    if |t.detailCodes| > 0 && t.detailCodes[0].Some? then t.detailCodes[0].value else 0
  }

  function ToRecent(t: RecentInput): RecentTransaction {
    var code := FirstCode(t);
    RecentTransaction(
      t.id, t.date, t.description, t.amount,
      if AccountType(code) == Revenue then IncomeTag else ExpenseTag,
      AccountName(code), code)
  }

  /** `getRecentTransactions`: the query's rows (already ordered and limited remotely)
      mapped one to one; an error gives the empty list. */
  function RecentTransactions(queryOk: bool, data: Option<seq<RecentInput>>): (r: seq<RecentTransaction>)
    ensures !queryOk ==> r == []
    ensures queryOk ==> |r| == (if data.Some? then |data.value| else 0)
    ensures queryOk && data.Some? ==> forall i :: 0 <= i < |r| ==>
      && r[i].id == data.value[i].id && r[i].date == data.value[i].date
      && r[i].description == data.value[i].description && r[i].amount == data.value[i].amount
      && r[i].accountCode == FirstCode(data.value[i])
      && r[i].accountName == AccountName(FirstCode(data.value[i]))
      && (r[i].tag == IncomeTag <==> 400000 <= FirstCode(data.value[i]) < 500000)
  {
    if !queryOk || data.None? then []
    else seq(|data.value|, i requires 0 <= i < |data.value| => ToRecent(data.value[i]))
  }

  /** A transaction whose first detail has no account is tagged as an expense of account 0. */
  lemma NoAccountIsExpense(t: RecentInput)
    requires t.detailCodes == [] || t.detailCodes[0].None?
    ensures ToRecent(t).tag == ExpenseTag && ToRecent(t).accountCode == 0
    ensures ToRecent(t).accountName == FallbackPrefix + "0"
  {
    assert IntToString(0) == "0";
  }

  // ---------------------------------------------------------------- account summary

  datatype Amounts = Amounts(debit: int, credit: int)

  /** An active account of the user with its detail rows (missing when the join gives none). */
  datatype AccountInput = AccountInput(id: string, code: int, details: Option<seq<Amounts>>)

  datatype AccountSummaryRow = AccountSummaryRow(
    id: string, code: int, name: string, accountType: AccountKind, balance: int)

  /** The raw debit - credit sum, whatever the account's normal side. */
  function RawBalance(ds: seq<Amounts>): int {
    if ds == [] then 0 else RawBalance(ds[..|ds| - 1]) + (ds[|ds| - 1].debit - ds[|ds| - 1].credit)
  }

  function BalanceOf(a: AccountInput): int {
    if a.details.Some? then RawBalance(a.details.value) else 0
  }

  /** `Math.abs(balance) > 0.01`: more than one cent either way. */
  predicate HasBalance(a: AccountInput) {
    Abs(BalanceOf(a)) > 1
  }

  function SummaryOf(a: AccountInput): AccountSummaryRow {
    AccountSummaryRow(a.id, a.code, AccountName(a.code), AccountType(a.code), BalanceOf(a))
  }

  /** The accounts the loop pushes, in input order. */
  function Kept(as_: seq<AccountInput>): (r: seq<AccountSummaryRow>)
    ensures |r| <= |as_|
  {
    if as_ == [] then []
    else
      var a := as_[|as_| - 1];
      Kept(as_[..|as_| - 1]) + (if HasBalance(a) then [SummaryOf(a)] else [])
  }

  /** The kept rows are exactly the summaries of the accounts with a balance. */
  lemma {:induction false} KeptMembers(as_: seq<AccountInput>)
    ensures forall x :: x in Kept(as_) ==> Abs(x.balance) > 1
    ensures forall i :: 0 <= i < |as_| && HasBalance(as_[i]) ==> SummaryOf(as_[i]) in Kept(as_)
    ensures forall x :: x in Kept(as_) ==> exists i :: 0 <= i < |as_| && x == SummaryOf(as_[i])
  {
    if as_ != [] {
      var p := as_[..|as_| - 1];
      KeptMembers(p);
      forall i | 0 <= i < |as_| && HasBalance(as_[i])
        ensures SummaryOf(as_[i]) in Kept(as_)
      {
        if i < |p| {
          assert as_[i] == p[i];
        }
      }
      forall x | x in Kept(as_)
        ensures exists i :: 0 <= i < |as_| && x == SummaryOf(as_[i])
      {
        if x in Kept(p) {
          var i :| 0 <= i < |p| && x == SummaryOf(p[i]);
          assert as_[i] == p[i];
        } else {
          assert x == SummaryOf(as_[|as_| - 1]);
        }
      }
    }
  }

  predicate SortedByCode(s: seq<AccountSummaryRow>) {
    forall i, j :: 0 <= i < j < |s| ==> s[i].code <= s[j].code
  }

  /** Inserts x after every row whose code is not larger, so equal codes keep their order. */
  function Insert(x: AccountSummaryRow, s: seq<AccountSummaryRow>): seq<AccountSummaryRow> {
    if s == [] then [x]
    else if x.code < s[0].code then [x] + s
    else [s[0]] + Insert(x, s[1..])
  }

  /** Inserting adds exactly x. */
  lemma {:induction false} InsertMultiset(x: AccountSummaryRow, s: seq<AccountSummaryRow>)
    ensures multiset(Insert(x, s)) == multiset(s) + multiset{x}
    decreases |s|
  {
    if s != [] && x.code >= s[0].code {
      InsertMultiset(x, s[1..]);
      assert s == [s[0]] + s[1..];
    }
  }

  /** A row no larger than every row of a sorted list can go in front of it. */
  lemma ConsSorted(a: AccountSummaryRow, t: seq<AccountSummaryRow>)
    requires SortedByCode(t)
    requires forall k :: 0 <= k < |t| ==> a.code <= t[k].code
    ensures SortedByCode([a] + t)
  {
    var r := [a] + t;
    forall i, j | 0 <= i < j < |r|
      ensures r[i].code <= r[j].code
    {
      assert r[j] == t[j - 1];
      if i > 0 {
        assert r[i] == t[i - 1];
      }
    }
  }

  /** Inserting into a sorted list keeps it sorted and adds exactly x. */
  lemma {:induction false} InsertSorted(x: AccountSummaryRow, s: seq<AccountSummaryRow>)
    requires SortedByCode(s)
    ensures SortedByCode(Insert(x, s))
    ensures multiset(Insert(x, s)) == multiset(s) + multiset{x}
    decreases |s|
  {
    InsertMultiset(x, s);
    if s != [] {
      if x.code < s[0].code {
        ConsSorted(x, s);
      } else {
        var t := Insert(x, s[1..]);
        InsertSorted(x, s[1..]);
        forall k | 0 <= k < |t|
          ensures s[0].code <= t[k].code
        {
          assert t[k] in multiset(s[1..]) + multiset{x};
          if t[k] != x {
            assert t[k] in multiset(s[1..]);
            var m :| 0 <= m < |s[1..]| && s[1..][m] == t[k];
            assert s[m + 1] == t[k];
          }
        }
        ConsSorted(s[0], t);
      }
    }
  }

  /** `accountBalances.sort((a, b) => a.code - b.code)`: a stable sort by code. */
  function SortByCode(s: seq<AccountSummaryRow>): (r: seq<AccountSummaryRow>)
    ensures SortedByCode(r)
    ensures multiset(r) == multiset(s)
  {
    if s == [] then []
    else
      assert s == s[..|s| - 1] + [s[|s| - 1]];
      InsertSorted(s[|s| - 1], SortByCode(s[..|s| - 1]));
      Insert(s[|s| - 1], SortByCode(s[..|s| - 1]))
  }

  lemma SortedBalances(kept: seq<AccountSummaryRow>)
    requires forall x :: x in kept ==> Abs(x.balance) > 1
    ensures forall x :: x in SortByCode(kept) ==> Abs(x.balance) > 1
  {
    forall x | x in SortByCode(kept) ensures Abs(x.balance) > 1 {
      assert x in multiset(SortByCode(kept));
    }
  }

  /** `getAccountSummary`: the accounts with more than one cent of raw balance, sorted by
      code; an error gives the empty list. */
  method GetAccountSummary(queryOk: bool, data: Option<seq<AccountInput>>) returns (r: seq<AccountSummaryRow>)
    ensures !queryOk ==> r == []
    ensures queryOk ==> r == SortByCode(Kept(if data.Some? then data.value else []))
    ensures SortedByCode(r)
    ensures forall x :: x in r ==> Abs(x.balance) > 1
  {
    if !queryOk {
      return [];
    }
    var accounts := if data.Some? then data.value else [];
    var accountBalances: seq<AccountSummaryRow> := [];
    for i := 0 to |accounts|
      invariant accountBalances == Kept(accounts[..i])
      invariant forall x :: x in accountBalances ==> Abs(x.balance) > 1
    {
      var account := accounts[i];
      assert accounts[..i + 1][..i] == accounts[..i];
      var balance := 0;
      if account.details.Some? {
        var ds := account.details.value;
        for k := 0 to |ds|
          invariant balance == RawBalance(ds[..k])
        {
          assert ds[..k + 1][..k] == ds[..k];
          balance := balance + (ds[k].debit - ds[k].credit);
        }
        assert ds[..|ds|] == ds;
      }
      if Abs(balance) > 1 {
        accountBalances := accountBalances + [
          AccountSummaryRow(account.id, account.code, AccountName(account.code), AccountType(account.code), balance)];
      }
    }
    assert accounts[..|accounts|] == accounts;
    r := SortByCode(accountBalances);
    SortedBalances(accountBalances);
  }

  /** The summary holds exactly the accounts with a balance, each once per input account. */
  lemma SummaryMembers(data: seq<AccountInput>, a: AccountInput)
    requires a in data
    ensures SummaryOf(a) in SortByCode(Kept(data)) <==> HasBalance(a)
  {
    KeptMembers(data);
    var r := SortByCode(Kept(data));
    assert SummaryOf(a) in r <==> SummaryOf(a) in multiset(Kept(data));
    var i :| 0 <= i < |data| && data[i] == a;
    if SummaryOf(a) in Kept(data) {
      assert Abs(SummaryOf(a).balance) > 1;
    }
  }

  // ---------------------------------------------------------------- monthly chart

  /** `Date.getMonth()`: 0 for January through 11 for December. */
  type Month = m: int | 0 <= m < 12

  const MonthNames: seq<string> :=
    ["Ene", "Feb", "Mar", "Abr", "May", "Jun", "Jul", "Ago", "Sep", "Oct", "Nov", "Dic"]

  /** The month shown by bucket j (0 = oldest, 5 = current month): the loop's
      `(currentMonth - i + 12) % 12` with i = 5 - j. */
  function LabelIndex(current: Month, j: int): Month
    requires 0 <= j < 6
  {
    (current - (5 - j) + 12) % 12
  }

  /** The bucket the code AS WRITTEN picks: `5 - (currentMonth - txMonth)`, without the
      year wrap-around. */
  function ChartIndexAsWritten(current: Month, txMonth: Month): int {
    5 - (current - txMonth)
  }

  /** The bucket intended: the month distance taken modulo 12 as in the labels. */
  function ChartIndex(current: Month, txMonth: Month): int {
    5 - (current - txMonth + 12) % 12
  }

  /** A transaction is counted exactly when its month is one of the six labels, and then
      in the bucket that carries its month's label. */
  lemma ChartIndexMatchesLabel(current: Month, txMonth: Month)
    ensures 0 <= ChartIndex(current, txMonth) < 6 ==> LabelIndex(current, ChartIndex(current, txMonth)) == txMonth
    ensures (exists j :: 0 <= j < 6 && LabelIndex(current, j) == txMonth) ==> 0 <= ChartIndex(current, txMonth) < 6
  {
    var k := ChartIndex(current, txMonth);
    if 0 <= k < 6 {
      IndexIffLabel(current, txMonth, k);
    }
    if j :| 0 <= j < 6 && LabelIndex(current, j) == txMonth {
      IndexIffLabel(current, txMonth, j);
    }
  }

  /** Within the same calendar year the written index and the intended one agree. */
  lemma ChartIndexAsWrittenSameYear(current: Month, txMonth: Month)
    requires txMonth <= current
    ensures ChartIndexAsWritten(current, txMonth) == ChartIndex(current, txMonth)
  {
  }

  /** In February the chart shows a "Dic" bucket, yet the written index of a December
      transaction is 15, so it is never counted. */
  lemma ChartIndexAsWrittenDropsDecember()
    ensures MonthNames[LabelIndex(1, 3)] == "Dic"
    ensures ChartIndexAsWritten(1, 11) == 15
    ensures ChartIndex(1, 11) == 3
  {
  }

  /** A transaction inside the chart window with its month and detail rows. */
  datatype ChartTx = ChartTx(month: Month, details: seq<Detail>)

  datatype ChartPoint = ChartPoint(name: string, ingresos: int, gastos: int)

  /** `Number(detail.credit) || Number(detail.debit) || 0`. */
  function DetailAmount(d: Detail): int {
    if d.credit != 0 then d.credit else d.debit
  }

  function KindOf(d: Detail): AccountKind {
    if CodeOf(d).Some? then AccountType(CodeOf(d).value) else Other
  }

  /** The amount one transaction adds to the revenue (resp. expense) series. */
  function TxAmount(ds: seq<Detail>, kind: AccountKind): int {
    if ds == [] then 0
    else TxAmount(ds[..|ds| - 1], kind) + (if KindOf(ds[|ds| - 1]) == kind then DetailAmount(ds[|ds| - 1]) else 0)
  }

  lemma TxAmountStep(ds: seq<Detail>, k: int, kind: AccountKind)
    requires 0 <= k < |ds|
    ensures TxAmount(ds[..k + 1], kind) == TxAmount(ds[..k], kind) + (if KindOf(ds[k]) == kind then DetailAmount(ds[k]) else 0)
  {
    assert ds[..k + 1][..k] == ds[..k];
  }

  /** Which rule picks a transaction's bucket: the code as written, or the intended
      month distance modulo 12. */
  datatype IndexRule = AsWritten | Intended

  function IndexBy(rule: IndexRule, current: Month, txMonth: Month): int {
    match rule
    case AsWritten => ChartIndexAsWritten(current, txMonth)
    case Intended => ChartIndex(current, txMonth)
  }

  /** What the transactions add to bucket j for the given kind, each transaction
      going to the bucket the rule picks. */
  function BucketAmount(rule: IndexRule, current: Month, txs: seq<ChartTx>, j: int, kind: AccountKind): int {
    if txs == [] then 0
    else
      var t := txs[|txs| - 1];
      BucketAmount(rule, current, txs[..|txs| - 1], j, kind)
        + (if IndexBy(rule, current, t.month) == j then TxAmount(t.details, kind) else 0)
  }

  function Bucket(rule: IndexRule, current: Month, txs: seq<ChartTx>, j: int): ChartPoint
    requires 0 <= j < 6
  {
    ChartPoint(MonthNames[LabelIndex(current, j)],
      BucketAmount(rule, current, txs, j, Revenue), BucketAmount(rule, current, txs, j, Expense))
  }

  /** One more transaction adds its amounts to the bucket its index names, and to no other. */
  lemma BucketStep(rule: IndexRule, current: Month, txs: seq<ChartTx>, t: ChartTx, j: int)
    requires 0 <= j < 6
    ensures Bucket(rule, current, txs + [t], j) ==
      if IndexBy(rule, current, t.month) == j then
        Bucket(rule, current, txs, j).(ingresos := Bucket(rule, current, txs, j).ingresos + TxAmount(t.details, Revenue),
                                       gastos := Bucket(rule, current, txs, j).gastos + TxAmount(t.details, Expense))
      else Bucket(rule, current, txs, j)
  {
    assert (txs + [t])[..|txs|] == txs;
  }

  /** Under either rule, a transaction whose month is not among the six labels adds
      nothing to any bucket. */
  lemma {:induction false} OutsideWindowIgnored(rule: IndexRule, current: Month, txs: seq<ChartTx>, t: ChartTx, j: int, kind: AccountKind)
    requires 0 <= j < 6
    requires forall k :: 0 <= k < 6 ==> LabelIndex(current, k) != t.month
    ensures BucketAmount(rule, current, txs + [t], j, kind) == BucketAmount(rule, current, txs, j, kind)
  {
    assert (txs + [t])[..|txs|] == txs;
    if IndexBy(rule, current, t.month) == j {
      if rule == Intended {
        IndexIffLabel(current, t.month, j);
      } else {
        AsWrittenIffLabel(current, t.month, j);
      }
      assert false;
    }
  }

  /** With the intended index a transaction counts in the bucket labelled with its own
      month and in no other. */
  lemma {:induction false} TxLandsInOwnMonth(current: Month, txs: seq<ChartTx>, t: ChartTx, j: int, kind: AccountKind)
    requires 0 <= j < 6
    ensures BucketAmount(Intended, current, txs + [t], j, kind)
      == BucketAmount(Intended, current, txs, j, kind) + (if LabelIndex(current, j) == t.month then TxAmount(t.details, kind) else 0)
  {
    assert (txs + [t])[..|txs|] == txs;
    IndexIffLabel(current, t.month, j);
  }

  /** As written, a transaction counts in the bucket labelled with its month only when
      that month is not later in the calendar year than the current one. */
  lemma {:induction false} TxLandsAsWritten(current: Month, txs: seq<ChartTx>, t: ChartTx, j: int, kind: AccountKind)
    requires 0 <= j < 6
    ensures BucketAmount(AsWritten, current, txs + [t], j, kind)
      == BucketAmount(AsWritten, current, txs, j, kind)
         + (if LabelIndex(current, j) == t.month && t.month <= current then TxAmount(t.details, kind) else 0)
  {
    assert (txs + [t])[..|txs|] == txs;
    AsWrittenIffLabel(current, t.month, j);
  }

  /** As written, a transaction from a month later in the calendar year than the
      current one (so from the previous year) adds nothing to any bucket, even when a
      bucket carries its month's label. */
  lemma AsWrittenDropsPreviousYear(current: Month, txs: seq<ChartTx>, t: ChartTx, j: int, kind: AccountKind)
    requires 0 <= j < 6
    requires t.month > current
    ensures BucketAmount(AsWritten, current, txs + [t], j, kind) == BucketAmount(AsWritten, current, txs, j, kind)
  {
    TxLandsAsWritten(current, txs, t, j, kind);
  }

  /** Bucket j is picked for a month exactly when j carries that month's label. */
  lemma IndexIffLabel(current: Month, txMonth: Month, j: int)
    requires 0 <= j < 6
    ensures ChartIndex(current, txMonth) == j <==> LabelIndex(current, j) == txMonth
  {
    Mod12(current - txMonth + 12);
    Mod12(current - (5 - j) + 12);
  }

  /** The index as written picks bucket j exactly when j carries the month's label and
      the month is not later in the year than the current one. */
  lemma AsWrittenIffLabel(current: Month, txMonth: Month, j: int)
    requires 0 <= j < 6
    ensures ChartIndexAsWritten(current, txMonth) == j <==> LabelIndex(current, j) == txMonth && txMonth <= current
  {
    Mod12(current - (5 - j) + 12);
  }

  /** `%` by 12 on the range the chart's indices live in. */
  lemma Mod12(x: int)
    requires 0 <= x < 24
    ensures x % 12 == if x < 12 then x else x - 12
  {
    if x >= 12 {
      assert x == 12 * 1 + (x - 12);
    }
  }

  /** The inner loop of getMonthlyChartData: each detail of one transaction adds its
      amount to the revenue or expense series of bucket idx, by its account's type. */
  method AddDetails(chart: seq<ChartPoint>, idx: int, ds: seq<Detail>) returns (out: seq<ChartPoint>)
    requires 0 <= idx < |chart|
    ensures |out| == |chart|
    ensures forall j :: 0 <= j < |chart| && j != idx ==> out[j] == chart[j]
    ensures out[idx] == chart[idx].(ingresos := chart[idx].ingresos + TxAmount(ds, Revenue),
                                    gastos := chart[idx].gastos + TxAmount(ds, Expense))
  {
    out := chart;
    for k := 0 to |ds|
      invariant |out| == |chart|
      invariant forall j :: 0 <= j < |chart| && j != idx ==> out[j] == chart[j]
      invariant out[idx] == chart[idx].(ingresos := chart[idx].ingresos + TxAmount(ds[..k], Revenue),
                                        gastos := chart[idx].gastos + TxAmount(ds[..k], Expense))
    {
      var d := ds[k];
      TxAmountStep(ds, k, Revenue);
      TxAmountStep(ds, k, Expense);
      var code := CodeOf(d);
      if code.Some? {
        var accountType := AccountType(code.value);
        var amount := DetailAmount(d);
        if accountType == Revenue {
          out := out[idx := out[idx].(ingresos := out[idx].ingresos + amount)];
        } else if accountType == Expense {
          out := out[idx := out[idx].(gastos := out[idx].gastos + amount)];
        }
      }
    }
    assert ds[..|ds|] == ds;
  }

  /** The first loop of getMonthlyChartData: six empty buckets, oldest month first. */
  method EmptyChart(current: Month) returns (chart: seq<ChartPoint>)
    ensures |chart| == 6
    ensures forall j :: 0 <= j < 6 ==> chart[j] == Bucket(AsWritten, current, [], j)
  {
    chart := [];
    var i := 5;
    while i >= 0
      invariant -1 <= i <= 5
      invariant |chart| == 5 - i
      invariant forall j :: 0 <= j < |chart| ==> chart[j] == Bucket(AsWritten, current, [], j)
    {
      var monthIndex := (current - i + 12) % 12;
      chart := chart + [ChartPoint(MonthNames[monthIndex], 0, 0)];
      i := i - 1;
    }
  }

  /** `getMonthlyChartData`: six buckets, oldest first, each labelled with its month and
      holding the revenue and expense amounts of the transactions whose index as written
      names it; an error gives the empty list. */
  method GetMonthlyChartData(current: Month, queryOk: bool, data: Option<seq<ChartTx>>)
    returns (chart: seq<ChartPoint>)
    ensures !queryOk ==> chart == []
    ensures queryOk ==> |chart| == 6
    ensures queryOk ==> forall j :: 0 <= j < 6 ==>
      chart[j] == Bucket(AsWritten, current, if data.Some? then data.value else [], j)
  {
    if !queryOk {
      return [];
    }
    chart := EmptyChart(current);
    var txs := if data.Some? then data.value else [];
    for n := 0 to |txs|
      invariant |chart| == 6
      invariant forall j :: 0 <= j < 6 ==> chart[j] == Bucket(AsWritten, current, txs[..n], j)
    {
      var t := txs[n];
      assert txs[..n + 1] == txs[..n] + [t];
      var chartIndex := ChartIndexAsWritten(current, t.month);
      if 0 <= chartIndex < 6 {
        chart := AddDetails(chart, chartIndex, t.details);
      }
      forall j | 0 <= j < 6
        ensures chart[j] == Bucket(AsWritten, current, txs[..n + 1], j)
      {
        BucketStep(AsWritten, current, txs[..n], t, j);
      }
    }
    assert txs[..|txs|] == txs;
  }
}
