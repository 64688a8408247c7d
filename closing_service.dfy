/** Closing and reopening of accounting periods (lib/services/closing-service.ts).
    A period is closed exactly when an active CIERRE transaction of the user is
    recorded under it. The answers of the database that the service reads (the
    period lookup, the closing query, calculate_net_income, the account balances
    of the current period) are the fields of a CloseEnv. */
module ClosingService {
  import opened Common
  import opened TransactionService

  /** A row of `account_balances` as closePeriod reads it (balance in cents). */
  datatype BalanceRow = BalanceRow(code: int, accountType: string, balance: int)

  /** Equity accounts that receive the profit or the loss of the period. */
  const ProfitAccount: int := 3100
  const LossAccount: int := 3110

  datatype CloseError =
    | PeriodNotFound        // "Período no encontrado"
    | AlreadyClosed         // "Este período ya fue cerrado"
    | NothingToClose        // "No hay movimientos para cerrar en este período"
    | PostRejected(error: PostError) // the error createTransaction reports
    | Unexpected            // an exception: "Error al cerrar el período"

  datatype ClosingResult = Closed(transactionId: string, netIncome: int) | CloseFailed(error: CloseError)

  datatype CloseOutcome = CloseOutcome(result: ClosingResult, store: Store)

  /** What the outside world answers during one call of closePeriod:
      `periodName` is the period found by getPeriodById (None: not found),
      `closedQueryOk` whether the query of checkPeriodClosed succeeds,
      `netIncome` the result of calculate_net_income (0 on its error),
      `balances` the detail balances of the current period (None: the query throws),
      `post` what createTransaction sees; its userId is the signed-in user. */
  datatype CloseEnv = CloseEnv(
    periodName: Option<string>,
    closedQueryOk: bool,
    netIncome: int,
    balances: Option<seq<BalanceRow>>,
    post: PostEnv)

  // ----- closed-ness -----

  predicate IsActiveClosing(t: Transaction, userId: string, periodId: string) {
    t.userId == userId && t.periodId == periodId && t.transactionType == Cierre && t.status
  }

  /** The period is closed: some active CIERRE transaction of the user lies in it. */
  predicate IsClosed(ts: seq<Transaction>, userId: string, periodId: string) {
    exists i :: 0 <= i < |ts| && IsActiveClosing(ts[i], userId, periodId)
  }

  /** checkPeriodClosed: a failing query reads as "not closed". */
  function CheckPeriodClosed(ts: seq<Transaction>, userId: string, periodId: string, queryOk: bool): bool {
    queryOk && IsClosed(ts, userId, periodId)
  }

  // ----- closing lines -----

  predicate ClosesRevenue(b: BalanceRow) {
    b.accountType == Ingreso && b.balance > 0
  }

  predicate ClosesExpense(b: BalanceRow) {
    (b.accountType == Gasto || b.accountType == Costo) && b.balance > 0
  }

  /** One debit line per revenue account with a positive balance, in input order. */
  function RevenueLines(bs: seq<BalanceRow>): seq<TransactionInput> {
    if bs == [] then []
    else
      var b := bs[|bs| - 1];
      RevenueLines(bs[..|bs| - 1]) + (if ClosesRevenue(b) then [TransactionInput(b.code, b.balance, 0)] else [])
  }

  /** One credit line per expense or cost account with a positive balance, in input order. */
  function ExpenseLines(bs: seq<BalanceRow>): seq<TransactionInput> {
    if bs == [] then []
    else
      var b := bs[|bs| - 1];
      ExpenseLines(bs[..|bs| - 1]) + (if ClosesExpense(b) then [TransactionInput(b.code, 0, b.balance)] else [])
  }

  /** The line that carries the result of the period to equity. */
  function EquityLines(netIncome: int): seq<TransactionInput> {
    if netIncome > 0 then [TransactionInput(ProfitAccount, 0, netIncome)]
    else if netIncome < 0 then [TransactionInput(LossAccount, Abs(netIncome), 0)]
    else []
  }

  /** The lines of the closing transaction: revenues, then expenses and costs, then equity. */
  function ClosingLines(bs: seq<BalanceRow>, netIncome: int): seq<TransactionInput> {
    RevenueLines(bs) + ExpenseLines(bs) + EquityLines(netIncome)
  }

  /** The sum of the positive revenue balances. */
  function RevenueSum(bs: seq<BalanceRow>): int {
    if bs == [] then 0
    else RevenueSum(bs[..|bs| - 1]) + (if ClosesRevenue(bs[|bs| - 1]) then bs[|bs| - 1].balance else 0)
  }

  /** The sum of the positive expense and cost balances. */
  function ExpenseSum(bs: seq<BalanceRow>): int {
    if bs == [] then 0
    else ExpenseSum(bs[..|bs| - 1]) + (if ClosesExpense(bs[|bs| - 1]) then bs[|bs| - 1].balance else 0)
  }

  /** The line lists follow the balances: the lines of a concatenation are the
      concatenation of the lines, so every qualifying account gets its line in input order. */
  lemma {:induction false} ClosingLinesAppend(a: seq<BalanceRow>, b: seq<BalanceRow>)
    ensures RevenueLines(a + b) == RevenueLines(a) + RevenueLines(b)
    ensures ExpenseLines(a + b) == ExpenseLines(a) + ExpenseLines(b)
    decreases |b|
  {
    if b == [] {
      assert a + b == a;
    } else {
      assert (a + b)[..|a + b| - 1] == a + b[..|b| - 1];
      ClosingLinesAppend(a, b[..|b| - 1]);
    }
  }

  /** One account: a positive revenue balance gives one debit line of that balance,
      a positive expense or cost balance one credit line, anything else no line. */
  lemma ClosingLinesSingle(b: BalanceRow)
    ensures RevenueLines([b]) == if ClosesRevenue(b) then [TransactionInput(b.code, b.balance, 0)] else []
    ensures ExpenseLines([b]) == if ClosesExpense(b) then [TransactionInput(b.code, 0, b.balance)] else []
  {
    assert [b][..0] == [];
  }

  lemma {:induction false} RevenueLinesTotals(bs: seq<BalanceRow>)
    ensures TotalDebit(RevenueLines(bs)) == RevenueSum(bs) && TotalCredit(RevenueLines(bs)) == 0
    decreases |bs|
  {
    if bs != [] {
      var b := bs[|bs| - 1];
      RevenueLinesTotals(bs[..|bs| - 1]);
      TotalsAppend(RevenueLines(bs[..|bs| - 1]), if ClosesRevenue(b) then [TransactionInput(b.code, b.balance, 0)] else []);
      assert [TransactionInput(b.code, b.balance, 0)][..0] == [];
    }
  }

  lemma {:induction false} ExpenseLinesTotals(bs: seq<BalanceRow>)
    ensures TotalDebit(ExpenseLines(bs)) == 0 && TotalCredit(ExpenseLines(bs)) == ExpenseSum(bs)
    decreases |bs|
  {
    if bs != [] {
      var b := bs[|bs| - 1];
      ExpenseLinesTotals(bs[..|bs| - 1]);
      TotalsAppend(ExpenseLines(bs[..|bs| - 1]), if ClosesExpense(b) then [TransactionInput(b.code, 0, b.balance)] else []);
      assert [TransactionInput(b.code, 0, b.balance)][..0] == [];
    }
  }

  /** Debits of the closing lines are the revenues plus a loss, credits the
      expenses plus a profit. */
  lemma ClosingLinesTotals(bs: seq<BalanceRow>, netIncome: int)
    ensures TotalDebit(ClosingLines(bs, netIncome)) == RevenueSum(bs) + (if netIncome < 0 then -netIncome else 0)
    ensures TotalCredit(ClosingLines(bs, netIncome)) == ExpenseSum(bs) + (if netIncome > 0 then netIncome else 0)
  {
    RevenueLinesTotals(bs);
    ExpenseLinesTotals(bs);
    TotalsAppend(RevenueLines(bs), ExpenseLines(bs));
    TotalsAppend(RevenueLines(bs) + ExpenseLines(bs), EquityLines(netIncome));
    var e := EquityLines(netIncome);
    if e != [] {
      assert e[..0] == [];
    }
  }

  /** The closing lines pass the posting balance check exactly when netIncome
      agrees, within the tolerance, with revenues minus expenses and costs. */
  lemma ClosingBalancedIff(bs: seq<BalanceRow>, netIncome: int)
    ensures IsBalanced(ClosingLines(bs, netIncome)) <==>
      Abs(netIncome - (RevenueSum(bs) - ExpenseSum(bs))) <= Tolerance
  {
    ClosingLinesTotals(bs, netIncome);
  }

  /** There is nothing to close exactly when no account qualifies and the result is zero. */
  lemma {:induction false} ClosingLinesEmptyIff(bs: seq<BalanceRow>, netIncome: int)
    ensures ClosingLines(bs, netIncome) == [] <==>
      netIncome == 0 && forall i :: 0 <= i < |bs| ==> !ClosesRevenue(bs[i]) && !ClosesExpense(bs[i])
    decreases |bs|
  {
    if bs != [] {
      var init := bs[..|bs| - 1];
      ClosingLinesEmptyIff(init, netIncome);
      assert forall i :: 0 <= i < |init| ==> init[i] == bs[i];
      if ClosingLines(bs, netIncome) == [] {
        assert RevenueLines(init) == [] && ExpenseLines(init) == [];
        assert |RevenueLines(bs)| == 0 && |ExpenseLines(bs)| == 0;
      }
    }
  }

  /** The detail lines closePeriod builds with its two forEach loops and the final branch. */
  method BuildClosingLines(balances: seq<BalanceRow>, netIncome: int) returns (details: seq<TransactionInput>)
    ensures details == RevenueLines(balances) + ExpenseLines(balances) + EquityLines(netIncome)
  {
    details := [];
    for i := 0 to |balances|
      invariant details == RevenueLines(balances[..i])
    {
      var b := balances[i];
      assert balances[..i + 1][..i] == balances[..i];
      if b.accountType == Ingreso && b.balance > 0 {
        details := details + [TransactionInput(b.code, b.balance, 0)];
      }
    }
    assert balances[..|balances|] == balances;
    var expenses: seq<TransactionInput> := [];
    for i := 0 to |balances|
      invariant expenses == ExpenseLines(balances[..i])
    {
      var b := balances[i];
      assert balances[..i + 1][..i] == balances[..i];
      if (b.accountType == Gasto || b.accountType == Costo) && b.balance > 0 {
        expenses := expenses + [TransactionInput(b.code, 0, b.balance)];
      }
    }
    details := details + expenses;
    if netIncome > 0 {
      details := details + [TransactionInput(ProfitAccount, 0, netIncome)];
    } else if netIncome < 0 {
      details := details + [TransactionInput(LossAccount, Abs(netIncome), 0)];
    }
  }

  // ----- closePeriod -----

  function ClosingDescription(periodName: string): string {
    "Cierre del período " + periodName
  }

  /** closePeriod, with the closing transaction recorded under `target`. */
  function CloseInto(s: Store, periodId: string, today: string, env: CloseEnv, target: string): (o: CloseOutcome)
    ensures env.periodName.None? ==> o == CloseOutcome(CloseFailed(PeriodNotFound), s)
    ensures env.periodName.Some? && CheckPeriodClosed(s.transactions, env.post.userId, periodId, env.closedQueryOk) ==>
      o == CloseOutcome(CloseFailed(AlreadyClosed), s)
    ensures o.result.Closed? ==>
      env.balances.Some? && o.result.netIncome == env.netIncome && o.result.transactionId == env.post.newId &&
      !CheckPeriodClosed(s.transactions, env.post.userId, periodId, env.closedQueryOk) &&
      ClosingLines(env.balances.value, env.netIncome) != [] &&
      Abs(env.netIncome - (RevenueSum(env.balances.value) - ExpenseSum(env.balances.value))) <= Tolerance
    ensures o.store != s ==>
      env.periodName.Some? && env.balances.Some? && ClosingLines(env.balances.value, env.netIncome) != [] &&
      !CheckPeriodClosed(s.transactions, env.post.userId, periodId, env.closedQueryOk)
    ensures o.store.transactions == s.transactions || |o.store.transactions| == |s.transactions| + 1
    ensures env.periodName.Some? && !CheckPeriodClosed(s.transactions, env.post.userId, periodId, env.closedQueryOk) ==>
      if env.balances.None? then o == CloseOutcome(CloseFailed(Unexpected), s)
      else if ClosingLines(env.balances.value, env.netIncome) == [] then o == CloseOutcome(CloseFailed(NothingToClose), s)
      else
        var p := Post(s, ClosingDescription(env.periodName.value), today, ClosingLines(env.balances.value, env.netIncome),
                      Cierre, None, env.post.(periodId := target));
        && o.store == p.store
        && (p.result.Posted? ==> o.result == Closed(p.result.transactionId, env.netIncome))
        && (p.result.PostFailed? ==> o.result == CloseFailed(PostRejected(p.result.error)))
  {
    if env.periodName.None? then
      CloseOutcome(CloseFailed(PeriodNotFound), s)
    else if CheckPeriodClosed(s.transactions, env.post.userId, periodId, env.closedQueryOk) then
      CloseOutcome(CloseFailed(AlreadyClosed), s)
    else if env.balances.None? then
      CloseOutcome(CloseFailed(Unexpected), s)
    else
      var lines := ClosingLines(env.balances.value, env.netIncome);
      if lines == [] then
        CloseOutcome(CloseFailed(NothingToClose), s)
      else
        ClosingBalancedIff(env.balances.value, env.netIncome);
        var o := Post(s, ClosingDescription(env.periodName.value), today, lines, Cierre, None,
                      env.post.(periodId := target));
        match o.result
        case Posted(id) => CloseOutcome(Closed(id, env.netIncome), o.store)
        case PostFailed(e) => CloseOutcome(CloseFailed(PostRejected(e)), o.store)
  }

  /** closePeriod as the service does it: createTransaction records the closing
      transaction under the current period, whatever period is being closed. */
  function CloseAsWritten(s: Store, periodId: string, today: string, env: CloseEnv): CloseOutcome {
    CloseInto(s, periodId, today, env, env.post.periodId)
  }

  /** closePeriod with the closing transaction recorded under the period being closed. */
  function Close(s: Store, periodId: string, today: string, env: CloseEnv): CloseOutcome {
    CloseInto(s, periodId, today, env, periodId)
  }

  /** After a successful close the period reads as closed. */
  lemma CloseThenClosed(s: Store, periodId: string, today: string, env: CloseEnv)
    requires Close(s, periodId, today, env).result.Closed?
    ensures IsClosed(Close(s, periodId, today, env).store.transactions, env.post.userId, periodId)
  {
    var lines := ClosingLines(env.balances.value, env.netIncome);
    var pe := env.post.(periodId := periodId);
    var h := Header(ClosingDescription(env.periodName.value), today, lines, Cierre, None, pe);
    PostSuccess(s, ClosingDescription(env.periodName.value), today, lines, Cierre, None, pe);
    var ts := Close(s, periodId, today, env).store.transactions;
    assert ts == s.transactions + [h];
    assert IsActiveClosing(ts[|ts| - 1], env.post.userId, periodId);
  }

  /** Closing succeeds when the guards pass, something is to be closed, the
      books agree with netIncome and every write succeeds. */
  lemma CloseSucceeds(s: Store, periodId: string, today: string, env: CloseEnv, target: string)
    requires env.periodName.Some? && env.balances.Some?
    requires !CheckPeriodClosed(s.transactions, env.post.userId, periodId, env.closedQueryOk)
    requires ClosingLines(env.balances.value, env.netIncome) != []
    requires Abs(env.netIncome - (RevenueSum(env.balances.value) - ExpenseSum(env.balances.value))) <= Tolerance
    requires env.post.headerInsertOk && env.post.detailsInsertOk
    requires AllResolvable(ClosingLines(env.balances.value, env.netIncome), env.post.accountIds)
    ensures CloseInto(s, periodId, today, env, target).result == Closed(env.post.newId, env.netIncome)
  {
    ClosingBalancedIff(env.balances.value, env.netIncome);
  }

  /** Closing keeps every transaction's rows balanced when the new id is fresh,
      whichever period the closing transaction is recorded under. */
  lemma CloseKeepsLedgerBalanced(s: Store, periodId: string, today: string, env: CloseEnv, target: string)
    requires LedgerBalanced(s)
    requires IdUnused(s, env.post.newId)
    ensures LedgerBalanced(CloseInto(s, periodId, today, env, target).store)
  {
    if env.periodName.Some? && env.balances.Some? {
      var lines := ClosingLines(env.balances.value, env.netIncome);
      PostKeepsLedgerBalanced(s, ClosingDescription(env.periodName.value), today, lines, Cierre, None,
                              env.post.(periodId := target));
    }
  }

  /** The query of checkPeriodClosed and the lookup of reopenPeriod agree: a period
      reads as closed exactly when the lookup finds a closing transaction. */
  lemma ClosedIffClosingIds(ts: seq<Transaction>, userId: string, periodId: string, queryOk: bool)
    ensures CheckPeriodClosed(ts, userId, periodId, queryOk) <==> queryOk && |ClosingIds(ts, userId, periodId)| > 0
  {
  }

  /** As written, closing a period other than the current one succeeds and yet
      leaves that period open. */
  lemma CloseAsWrittenLeavesPastPeriodOpen()
    ensures var env := CloseEnv(Some("Enero"), true, 100, Some([BalanceRow(4101, Ingreso, 100)]),
                                PostEnv("u", "feb", "t1", true, map[4101 := "a1", 3100 := "a2"], true));
      var o := CloseAsWritten(Store([], []), "ene", "2024-02-03", env);
      o.result.Closed? && !IsClosed(o.store.transactions, "u", "ene")
  {
    var bs := [BalanceRow(4101, Ingreso, 100)];
    ClosingLinesSingle(bs[0]);
    assert RevenueLines(bs) == [TransactionInput(4101, 100, 0)];
    assert ExpenseLines(bs) == [];
    var lines := ClosingLines(bs, 100);
    assert lines == [TransactionInput(4101, 100, 0), TransactionInput(3100, 0, 100)];
    ClosingBalancedIff(bs, 100);
    assert RevenueSum(bs) == 100 && ExpenseSum(bs) == 0 by {
      assert bs[..0] == [];
    }
    var env := CloseEnv(Some("Enero"), true, 100, Some(bs),
                        PostEnv("u", "feb", "t1", true, map[4101 := "a1", 3100 := "a2"], true));
    var o := CloseAsWritten(Store([], []), "ene", "2024-02-03", env);
    assert AllResolvable(lines, env.post.accountIds);
    var h := Header(ClosingDescription("Enero"), "2024-02-03", lines, Cierre, None, env.post);
    assert o.store.transactions == [h];
    assert h.periodId == "feb";
  }

  // ----- reopenPeriod -----

  /** The ids of the user's active CIERRE transactions in the period, in table order. */
  function ClosingIds(ts: seq<Transaction>, userId: string, periodId: string): (r: seq<string>)
    ensures |r| == 0 <==> !IsClosed(ts, userId, periodId)
  {
    if ts == [] then []
    else
      var init := ts[..|ts| - 1];
      assert forall i :: 0 <= i < |init| ==> init[i] == ts[i];
      ClosingIds(init, userId, periodId) +
        (if IsActiveClosing(ts[|ts| - 1], userId, periodId) then [ts[|ts| - 1].id] else [])
  }

  /** The update of reopenPeriod: every row with this id becomes inactive. */
  function Deactivate(ts: seq<Transaction>, txId: string): (r: seq<Transaction>)
    ensures |r| == |ts|
    ensures forall i :: 0 <= i < |ts| ==> r[i] == if ts[i].id == txId then ts[i].(status := false) else ts[i]
  {
    seq(|ts|, i requires 0 <= i < |ts| => if ts[i].id == txId then ts[i].(status := false) else ts[i])
  }

  datatype ReopenResult = Reopened | NoClosingTransaction | ReopenError

  /** The effect of reopenPeriod on the transactions table: the lookup (`single`)
      succeeds only for exactly one active CIERRE transaction; that one is then
      deactivated, by id alone. */
  function Reopen(ts: seq<Transaction>, userId: string, periodId: string, queryOk: bool, updateOk: bool)
    : (o: (ReopenResult, seq<Transaction>))
    ensures o.0 == Reopened <==> queryOk && |ClosingIds(ts, userId, periodId)| == 1 && updateOk
    ensures o.0 != Reopened ==> o.1 == ts
    ensures !IsClosed(ts, userId, periodId) ==> o == (NoClosingTransaction, ts)
    ensures o.0 == Reopened ==> o.1 == Deactivate(ts, ClosingIds(ts, userId, periodId)[0])
  {
    var ids := ClosingIds(ts, userId, periodId);
    if !queryOk || |ids| != 1 then (NoClosingTransaction, ts)
    else if !updateOk then (ReopenError, ts)
    else (Reopened, Deactivate(ts, ids[0]))
  }

  /** Every id ClosingIds lists belongs to an active CIERRE transaction of the period. */
  lemma {:induction false} ClosingIdsSound(ts: seq<Transaction>, userId: string, periodId: string, k: nat)
    requires k < |ClosingIds(ts, userId, periodId)|
    ensures exists i :: 0 <= i < |ts| && ts[i].id == ClosingIds(ts, userId, periodId)[k] &&
                        IsActiveClosing(ts[i], userId, periodId)
    decreases |ts|
  {
    var init := ts[..|ts| - 1];
    assert forall i :: 0 <= i < |init| ==> init[i] == ts[i];
    if k < |ClosingIds(init, userId, periodId)| {
      ClosingIdsSound(init, userId, periodId, k);
    } else {
      assert ts[|ts| - 1].id == ClosingIds(ts, userId, periodId)[k];
    }
  }

  /** A transaction whose id ClosingIds does not list is not an active CIERRE of the period. */
  lemma {:induction false} ClosingIdsComplete(ts: seq<Transaction>, userId: string, periodId: string, i: nat)
    requires i < |ts| && IsActiveClosing(ts[i], userId, periodId)
    ensures ts[i].id in ClosingIds(ts, userId, periodId)
    decreases |ts|
  {
    var init := ts[..|ts| - 1];
    if i < |init| {
      assert init[i] == ts[i];
      ClosingIdsComplete(init, userId, periodId, i);
    }
  }

  /** No two rows of the table share an id (the id is the table's primary key). */
  predicate DistinctIds(ts: seq<Transaction>) {
    forall i, j :: 0 <= i < j < |ts| ==> ts[i].id != ts[j].id
  }

  /** A successful reopen changes only the status of the period's single active CIERRE
      transaction, to false; every other row stays as it was. */
  lemma ReopenChangesOnlyClosing(ts: seq<Transaction>, userId: string, periodId: string, queryOk: bool, updateOk: bool)
    requires DistinctIds(ts)
    requires Reopen(ts, userId, periodId, queryOk, updateOk).0 == Reopened
    ensures var ts' := Reopen(ts, userId, periodId, queryOk, updateOk).1;
      && |ts'| == |ts|
      && forall i :: 0 <= i < |ts| && ts'[i] != ts[i] ==>
           IsActiveClosing(ts[i], userId, periodId) && ts'[i] == ts[i].(status := false)
  {
    var ids := ClosingIds(ts, userId, periodId);
    ClosingIdsSound(ts, userId, periodId, 0);
    var k :| 0 <= k < |ts| && ts[k].id == ids[0] && IsActiveClosing(ts[k], userId, periodId);
    var ts' := Deactivate(ts, ids[0]);
    forall i | 0 <= i < |ts| && ts'[i] != ts[i]
      ensures IsActiveClosing(ts[i], userId, periodId) && ts'[i] == ts[i].(status := false)
    {
      assert ts[i].id == ids[0] == ts[k].id;
    }
  }

  /** After a successful reopen the period reads as not closed. */
  lemma ReopenOpens(ts: seq<Transaction>, userId: string, periodId: string, queryOk: bool, updateOk: bool)
    requires Reopen(ts, userId, periodId, queryOk, updateOk).0 == Reopened
    ensures !IsClosed(Reopen(ts, userId, periodId, queryOk, updateOk).1, userId, periodId)
  {
    var ids := ClosingIds(ts, userId, periodId);
    var r := Deactivate(ts, ids[0]);
    forall i | 0 <= i < |r|
      ensures !IsActiveClosing(r[i], userId, periodId)
    {
      if IsActiveClosing(ts[i], userId, periodId) {
        ClosingIdsComplete(ts, userId, periodId, i);
        assert ts[i].id == ids[0];
      }
    }
  }

  /** Close followed by reopen: the period is open again and the closing
      transaction is the only one whose status changed. */
  lemma CloseThenReopen(s: Store, periodId: string, today: string, env: CloseEnv)
    requires IdUnused(s, env.post.newId)
    requires env.closedQueryOk
    requires Close(s, periodId, today, env).result.Closed?
    ensures var ts := Close(s, periodId, today, env).store.transactions;
      var (r, ts') := Reopen(ts, env.post.userId, periodId, true, true);
      r == Reopened && !IsClosed(ts', env.post.userId, periodId) &&
      ts'[..|s.transactions|] == s.transactions && !ts'[|s.transactions|].status
  {
    var userId := env.post.userId;
    var ts := Close(s, periodId, today, env).store.transactions;
    var lines := ClosingLines(env.balances.value, env.netIncome);
    var pe := env.post.(periodId := periodId);
    var h := Header(ClosingDescription(env.periodName.value), today, lines, Cierre, None, pe);
    PostSuccess(s, ClosingDescription(env.periodName.value), today, lines, Cierre, None, pe);
    assert ts == s.transactions + [h];
    assert !IsClosed(s.transactions, userId, periodId);
    assert ts[..|ts| - 1] == s.transactions;
    assert ClosingIds(ts, userId, periodId) == [h.id];
    ReopenOpens(ts, userId, periodId, true, true);
    var ts' := Reopen(ts, userId, periodId, true, true).1;
    assert ts' == Deactivate(ts, h.id);
    forall i | 0 <= i < |s.transactions|
      ensures ts'[i] == s.transactions[i]
    {
      assert s.transactions[i] in s.transactions;
    }
  }

  // ----- getPeriodsClosingStatus -----

  /** The periods among `periodIds` with an active CIERRE transaction of the user. */
  function ClosedPeriods(ts: seq<Transaction>, userId: string, periodIds: seq<string>): set<string> {
    set i | 0 <= i < |ts| && IsActiveClosing(ts[i], userId, ts[i].periodId) && ts[i].periodId in periodIds
      :: ts[i].periodId
  }

  lemma ClosedPeriodsIff(ts: seq<Transaction>, userId: string, periodIds: seq<string>, p: string)
    requires p in periodIds
    ensures p in ClosedPeriods(ts, userId, periodIds) <==> IsClosed(ts, userId, p)
  {
    if IsClosed(ts, userId, p) {
      var i :| 0 <= i < |ts| && IsActiveClosing(ts[i], userId, p);
      assert ts[i].periodId == p;
    }
  }

  /** getPeriodsClosingStatus: one entry per requested id, true exactly for the
      closed periods; a failing query gives the empty object. */
  method GetPeriodsClosingStatus(ts: seq<Transaction>, userId: string, periodIds: seq<string>, queryOk: bool)
    returns (status: map<string, bool>)
    ensures !queryOk ==> status == map[]
    ensures queryOk ==> status.Keys == set i | 0 <= i < |periodIds| :: periodIds[i]
    ensures queryOk ==> forall p :: p in status ==> (status[p] <==> IsClosed(ts, userId, p))
  {
    if !queryOk {
      return map[];
    }
    var closedPeriods := ClosedPeriods(ts, userId, periodIds);
    status := map[];
    for k := 0 to |periodIds|
      invariant status.Keys == set i | 0 <= i < k :: periodIds[i]
      invariant forall p :: p in status ==> p in periodIds && (status[p] <==> p in closedPeriods)
    {
      status := status[periodIds[k] := periodIds[k] in closedPeriods];
    }
    forall p | p in status
      ensures status[p] <==> IsClosed(ts, userId, p)
    {
      ClosedPeriodsIff(ts, userId, periodIds, p);
    }
  }

  // ----- the service methods over the database -----

  /** closePeriod over the database: as in the service, createTransaction records the
      closing transaction under the current period. */
  method ClosePeriod(ledger: Ledger, periodId: string, today: string, env: CloseEnv) returns (r: ClosingResult)
    modifies ledger
    ensures CloseOutcome(r, ledger.Snapshot()) == CloseAsWritten(old(ledger.Snapshot()), periodId, today, env)
  {
    if env.periodName.None? {
      return CloseFailed(PeriodNotFound);
    }
    var existingClosing := CheckPeriodClosed(ledger.transactions, env.post.userId, periodId, env.closedQueryOk);
    if existingClosing {
      return CloseFailed(AlreadyClosed);
    }
    if env.balances.None? {
      return CloseFailed(Unexpected);
    }
    var details := BuildClosingLines(env.balances.value, env.netIncome);
    if |details| == 0 {
      return CloseFailed(NothingToClose);
    }
    var result := ledger.CreateTransaction(ClosingDescription(env.periodName.value), today, details, Cierre, None,
                                           env.post);
    match result
    case Posted(id) => r := Closed(id, env.netIncome);
    case PostFailed(e) => r := CloseFailed(PostRejected(e));
  }

  /** reopenPeriod over the database. */
  method ReopenPeriod(ledger: Ledger, userId: string, periodId: string, queryOk: bool, updateOk: bool)
    returns (r: ReopenResult)
    modifies ledger
    ensures (r, ledger.transactions) == Reopen(old(ledger.transactions), userId, periodId, queryOk, updateOk)
    ensures ledger.details == old(ledger.details)
  {
    var ids := ClosingIds(ledger.transactions, userId, periodId);
    if !queryOk || |ids| != 1 {
      return NoClosingTransaction;
    }
    if !updateOk {
      return ReopenError;
    }
    ledger.transactions := Deactivate(ledger.transactions, ids[0]);
    r := Reopened;
  }
}
