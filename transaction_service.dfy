/** Posting of journal transactions (lib/services/transaction-service.ts).
    The database tables `transactions` and `transaction_details` are the
    fields of the class Ledger; the answers of the database and of the
    `get_or_create_account` procedure during one posting are a PostEnv.
    Amounts are integer cents. */
module TransactionService {
  import opened Common

  datatype TransactionType = Diario | Ajuste | Cierre

  /** One proposed line (TransactionInput). */
  datatype TransactionInput = TransactionInput(accountCode: int, debit: int, credit: int)

  /** A row of the `transactions` table. */
  datatype Transaction = Transaction(
    id: string,
    userId: string,
    periodId: string,
    description: string,
    date: string,
    amount: int,
    transactionType: TransactionType,
    referenceNumber: Option<string>,
    status: bool)

  /** A row of the `transaction_details` table. */
  datatype DetailRow = DetailRow(
    userId: string,
    transactionId: string,
    accountId: string,
    debit: int,
    credit: int,
    total: int)

  datatype PostError = Unbalanced(totalDebit: int, totalCredit: int) | StorageError

  datatype PostResult = Posted(transactionId: string) | PostFailed(error: PostError)

  /** What the outside world answers during one call of createTransaction: the
      signed-in user, the current period, the id the database assigns to the new
      header, whether the header insert succeeds, the account id that
      `get_or_create_account` returns for each code (a missing code is an error
      of that procedure) and whether the insert of the detail rows succeeds. */
  datatype PostEnv = PostEnv(
    userId: string,
    periodId: string,
    newId: string,
    headerInsertOk: bool,
    accountIds: map<int, string>,
    detailsInsertOk: bool)

  /** The two tables. */
  datatype Store = Store(transactions: seq<Transaction>, details: seq<DetailRow>)

  /** Largest difference in cents between debits and credits that posting accepts
      (the service rejects |debit - credit| > 0.01). */
  const Tolerance: int := 1

  function TotalDebit(lines: seq<TransactionInput>): int {
    if lines == [] then 0 else TotalDebit(lines[..|lines| - 1]) + lines[|lines| - 1].debit
  }

  function TotalCredit(lines: seq<TransactionInput>): int {
    if lines == [] then 0 else TotalCredit(lines[..|lines| - 1]) + lines[|lines| - 1].credit
  }

  lemma {:induction false} TotalsAppend(a: seq<TransactionInput>, b: seq<TransactionInput>)
    ensures TotalDebit(a + b) == TotalDebit(a) + TotalDebit(b)
    ensures TotalCredit(a + b) == TotalCredit(a) + TotalCredit(b)
    decreases |b|
  {
    if b == [] {
      assert a + b == a;
    } else {
      assert (a + b)[..|a + b| - 1] == a + b[..|b| - 1];
      TotalsAppend(a, b[..|b| - 1]);
    }
  }

  /** The order of the lines does not matter to the totals. */
  lemma {:induction false} TotalsPermutation(a: seq<TransactionInput>, b: seq<TransactionInput>)
    requires multiset(a) == multiset(b)
    ensures TotalDebit(a) == TotalDebit(b) && TotalCredit(a) == TotalCredit(b)
    decreases |a|
  {
    if a != [] {
      var x := a[|a| - 1];
      assert a == a[..|a| - 1] + [x];
      assert x in multiset(b);
      var k :| 0 <= k < |b| && b[k] == x;
      var rest := b[..k] + b[k + 1..];
      assert b == b[..k] + [x] + b[k + 1..];
      RemoveMiddle(b[..k], x, b[k + 1..]);
      assert multiset(a[..|a| - 1]) == multiset(a) - multiset{x};
      TotalsPermutation(a[..|a| - 1], rest);
      TotalsAppend(a[..|a| - 1], [x]);
    }
  }

  /** Taking x out of the middle removes one copy of it and its amounts. */
  lemma RemoveMiddle(head: seq<TransactionInput>, x: TransactionInput, tail: seq<TransactionInput>)
    ensures multiset(head + tail) == multiset(head + [x] + tail) - multiset{x}
    ensures TotalDebit(head + [x] + tail) == TotalDebit(head + tail) + x.debit
    ensures TotalCredit(head + [x] + tail) == TotalCredit(head + tail) + x.credit
  {
    assert multiset(head + [x] + tail) == multiset(head) + multiset{x} + multiset(tail);
    assert multiset(head + tail) == multiset(head) + multiset(tail);
    TotalsAppend(head + [x], tail);
    TotalsAppend(head, [x]);
    TotalsAppend(head, tail);
    assert [x][..0] == [];
  }

  /** The server-side balance check; only the two totals decide it. */
  predicate IsBalanced(lines: seq<TransactionInput>) {
    Abs(TotalDebit(lines) - TotalCredit(lines)) <= Tolerance
  }

  /** The detail row built for one input line: `total` is the debit when that is
      nonzero, otherwise the credit (`detail.debit || detail.credit`). */
  function RowFor(line: TransactionInput, userId: string, txId: string, accountId: string): DetailRow {
    DetailRow(userId, txId, accountId, line.debit, line.credit,
              if line.debit != 0 then line.debit else line.credit)
  }

  predicate AllResolvable(lines: seq<TransactionInput>, accountIds: map<int, string>) {
    forall i :: 0 <= i < |lines| ==> lines[i].accountCode in accountIds
  }

  /** The rows the posting loop builds: one per line, in input order; None when the
      account lookup fails for some line. */
  function DetailRows(lines: seq<TransactionInput>, userId: string, txId: string,
                      accountIds: map<int, string>): (r: Option<seq<DetailRow>>)
    ensures r.Some? <==> AllResolvable(lines, accountIds)
    ensures r.Some? ==> |r.value| == |lines|
    ensures r.Some? ==> forall i :: 0 <= i < |lines| ==>
      r.value[i] == RowFor(lines[i], userId, txId, accountIds[lines[i].accountCode])
  {
    if lines == [] then Some([])
    else
      var init, last := lines[..|lines| - 1], lines[|lines| - 1];
      assert forall i :: 0 <= i < |init| ==> init[i] == lines[i];
      match DetailRows(init, userId, txId, accountIds)
      case None => None
      case Some(rows) =>
        if last.accountCode in accountIds then
          Some(rows + [RowFor(last, userId, txId, accountIds[last.accountCode])])
        else None
  }

  function RowsDebit(rows: seq<DetailRow>): int {
    if rows == [] then 0 else RowsDebit(rows[..|rows| - 1]) + rows[|rows| - 1].debit
  }

  function RowsCredit(rows: seq<DetailRow>): int {
    if rows == [] then 0 else RowsCredit(rows[..|rows| - 1]) + rows[|rows| - 1].credit
  }

  /** The detail rows carry exactly the debits and credits of the lines. */
  lemma {:induction false} DetailRowsTotals(lines: seq<TransactionInput>, userId: string, txId: string,
                                            accountIds: map<int, string>)
    requires AllResolvable(lines, accountIds)
    ensures RowsDebit(DetailRows(lines, userId, txId, accountIds).value) == TotalDebit(lines)
    ensures RowsCredit(DetailRows(lines, userId, txId, accountIds).value) == TotalCredit(lines)
    decreases |lines|
  {
    if lines != [] {
      var init := lines[..|lines| - 1];
      assert AllResolvable(init, accountIds) by {
        assert forall i :: 0 <= i < |init| ==> init[i] == lines[i];
      }
      DetailRowsTotals(init, userId, txId, accountIds);
      var rows := DetailRows(lines, userId, txId, accountIds).value;
      assert rows[..|rows| - 1] == DetailRows(init, userId, txId, accountIds).value;
    }
  }

  /** The header createTransaction inserts: amount is the total debit, status is active. */
  function Header(description: string, date: string, lines: seq<TransactionInput>,
                  txType: TransactionType, referenceNumber: Option<string>, env: PostEnv): Transaction {
    Transaction(env.newId, env.userId, env.periodId, description, date,
                TotalDebit(lines), txType, referenceNumber, true)
  }

  datatype Outcome = Outcome(result: PostResult, store: Store)

  /** The effect of createTransaction: the balance check runs before any write;
      then the header is inserted, then the detail rows, each write failing on its
      own, with no rollback of the header. */
  function Post(s: Store, description: string, date: string, lines: seq<TransactionInput>,
                txType: TransactionType, referenceNumber: Option<string>, env: PostEnv): (o: Outcome)
    ensures o.result.Posted? ==> IsBalanced(lines) && o.result.transactionId == env.newId
    ensures !IsBalanced(lines) ==>
      o == Outcome(PostFailed(Unbalanced(TotalDebit(lines), TotalCredit(lines))), s)
    ensures o.store.transactions == s.transactions ||
            o.store.transactions == s.transactions + [Header(description, date, lines, txType, referenceNumber, env)]
    ensures o.store.details != s.details ==> o.result.Posted?
    ensures o.result.Posted? <==>
      IsBalanced(lines) && env.headerInsertOk && AllResolvable(lines, env.accountIds) && env.detailsInsertOk
  {
    if !IsBalanced(lines) then
      Outcome(PostFailed(Unbalanced(TotalDebit(lines), TotalCredit(lines))), s)
    else if !env.headerInsertOk then
      Outcome(PostFailed(StorageError), s)
    else
      var withHeader := s.(transactions := s.transactions + [Header(description, date, lines, txType, referenceNumber, env)]);
      match DetailRows(lines, env.userId, env.newId, env.accountIds)
      case None => Outcome(PostFailed(StorageError), withHeader)
      case Some(rows) =>
        if env.detailsInsertOk then Outcome(Posted(env.newId), withHeader.(details := s.details + rows))
        else Outcome(PostFailed(StorageError), withHeader)
  }

  /** A successful posting appends one header and one row per line, in order. */
  lemma PostSuccess(s: Store, description: string, date: string, lines: seq<TransactionInput>,
                    txType: TransactionType, referenceNumber: Option<string>, env: PostEnv)
    requires Post(s, description, date, lines, txType, referenceNumber, env).result.Posted?
    ensures var o := Post(s, description, date, lines, txType, referenceNumber, env);
      var h := Header(description, date, lines, txType, referenceNumber, env);
      o.store.transactions == s.transactions + [h] &&
      h.amount == TotalDebit(lines) && h.status &&
      |o.store.details| == |s.details| + |lines| &&
      o.store.details[..|s.details|] == s.details &&
      forall i :: 0 <= i < |lines| ==>
        o.store.details[|s.details| + i] == RowFor(lines[i], env.userId, env.newId, env.accountIds[lines[i].accountCode])
  {
  }

  /** Posting is not atomic: when a later step fails, the header stays written
      (active) and no detail row is added. */
  lemma PostPartialFailure(s: Store, description: string, date: string, lines: seq<TransactionInput>,
                           txType: TransactionType, referenceNumber: Option<string>, env: PostEnv)
    requires IsBalanced(lines) && env.headerInsertOk
    requires !AllResolvable(lines, env.accountIds) || !env.detailsInsertOk
    ensures var o := Post(s, description, date, lines, txType, referenceNumber, env);
      o.result == PostFailed(StorageError) && o.store.details == s.details &&
      o.store.transactions == s.transactions + [Header(description, date, lines, txType, referenceNumber, env)]
  {
  }

  /** The detail rows of one transaction. */
  function RowsOf(rows: seq<DetailRow>, txId: string): (r: seq<DetailRow>)
    ensures forall i :: 0 <= i < |r| ==> r[i].transactionId == txId
  {
    if rows == [] then []
    else RowsOf(rows[..|rows| - 1], txId) + (if rows[|rows| - 1].transactionId == txId then [rows[|rows| - 1]] else [])
  }

  lemma {:induction false} RowsOfAppend(a: seq<DetailRow>, b: seq<DetailRow>, txId: string)
    ensures RowsOf(a + b, txId) == RowsOf(a, txId) + RowsOf(b, txId)
    decreases |b|
  {
    if b == [] {
      assert a + b == a;
    } else {
      assert (a + b)[..|a + b| - 1] == a + b[..|b| - 1];
      RowsOfAppend(a, b[..|b| - 1], txId);
    }
  }

  lemma {:induction false} RowsOfOwn(rows: seq<DetailRow>, txId: string)
    requires forall i :: 0 <= i < |rows| ==> rows[i].transactionId == txId
    ensures RowsOf(rows, txId) == rows
    decreases |rows|
  {
    if rows != [] {
      RowsOfOwn(rows[..|rows| - 1], txId);
    }
  }

  lemma {:induction false} RowsOfNone(rows: seq<DetailRow>, txId: string)
    requires forall i :: 0 <= i < |rows| ==> rows[i].transactionId != txId
    ensures RowsOf(rows, txId) == []
    decreases |rows|
  {
    if rows != [] {
      RowsOfNone(rows[..|rows| - 1], txId);
    }
  }

  /** The detail rows of transaction `id` balance (within the tolerance). */
  predicate TxBalanced(details: seq<DetailRow>, id: string) {
    Abs(RowsDebit(RowsOf(details, id)) - RowsCredit(RowsOf(details, id))) <= Tolerance
  }

  /** Every transaction in the store has balanced detail rows. */
  predicate LedgerBalanced(s: Store) {
    forall t :: t in s.transactions ==> TxBalanced(s.details, t.id)
  }

  predicate IdUnused(s: Store, id: string) {
    (forall t :: t in s.transactions ==> t.id != id) &&
    (forall i :: 0 <= i < |s.details| ==> s.details[i].transactionId != id)
  }

  /** Appending rows that all belong to a fresh id leaves the rows of every other
      transaction as they were, and gives the fresh id exactly the new rows. */
  lemma {:induction false} RowsOfAfterAppend(details: seq<DetailRow>, rows: seq<DetailRow>, newId: string, id: string)
    requires forall i :: 0 <= i < |details| ==> details[i].transactionId != newId
    requires forall i :: 0 <= i < |rows| ==> rows[i].transactionId == newId
    ensures RowsOf(details + rows, id) == if id == newId then rows else RowsOf(details, id)
  {
    RowsOfAppend(details, rows, id);
    if id == newId {
      RowsOfNone(details, id);
      RowsOfOwn(rows, id);
      assert [] + rows == rows;
    } else {
      RowsOfNone(rows, id);
      assert RowsOf(details, id) + [] == RowsOf(details, id);
    }
  }

  /** Appending a header under a fresh id, with rows that all belong to it and
      balance, keeps the store balanced. */
  lemma {:induction false} AppendKeepsLedgerBalanced(s: Store, h: Transaction, rows: seq<DetailRow>)
    requires LedgerBalanced(s)
    requires IdUnused(s, h.id)
    requires forall i :: 0 <= i < |rows| ==> rows[i].transactionId == h.id
    requires TxBalanced(rows, h.id)
    ensures LedgerBalanced(Store(s.transactions + [h], s.details + rows))
  {
    forall t | t in s.transactions + [h]
      ensures TxBalanced(s.details + rows, t.id)
    {
      if t.id != h.id {
        assert t in s.transactions;
      }
      AppendKeepsTxBalanced(s.details, rows, h.id, t.id);
    }
  }

  /** The same for one transaction: the fresh id balances by its new rows, any other
      id keeps its rows. */
  lemma AppendKeepsTxBalanced(details: seq<DetailRow>, rows: seq<DetailRow>, newId: string, id: string)
    requires forall i :: 0 <= i < |details| ==> details[i].transactionId != newId
    requires forall i :: 0 <= i < |rows| ==> rows[i].transactionId == newId
    requires TxBalanced(rows, newId)
    requires id != newId ==> TxBalanced(details, id)
    ensures TxBalanced(details + rows, id)
  {
    RowsOfAfterAppend(details, rows, newId, id);
    if id == newId {
      RowsOfOwn(rows, newId);
    }
  }

  /** Posting under a fresh id keeps every transaction of the store balanced:
      debits equal credits (within the tolerance) for all transactions. */
  lemma {:induction false} PostKeepsLedgerBalanced(s: Store, description: string, date: string, lines: seq<TransactionInput>,
                                txType: TransactionType, referenceNumber: Option<string>, env: PostEnv)
    requires LedgerBalanced(s)
    requires IdUnused(s, env.newId)
    ensures LedgerBalanced(Post(s, description, date, lines, txType, referenceNumber, env).store)
  {
    var h := Header(description, date, lines, txType, referenceNumber, env);
    var o := Post(s, description, date, lines, txType, referenceNumber, env);
    if !IsBalanced(lines) || !env.headerInsertOk {
      assert o.store == s;
    } else {
      var rows := DetailRows(lines, env.userId, env.newId, env.accountIds);
      if rows.Some? && env.detailsInsertOk {
        assert o.store == Store(s.transactions + [h], s.details + rows.value);
        DetailRowsTotals(lines, env.userId, env.newId, env.accountIds);
        RowsOfOwn(rows.value, env.newId);
        AppendKeepsLedgerBalanced(s, h, rows.value);
      } else {
        assert o.store == Store(s.transactions + [h], s.details + []) by {
          assert s.details + [] == s.details;
        }
        assert TxBalanced([], h.id);
        AppendKeepsLedgerBalanced(s, h, []);
      }
    }
  }

  /** The effect of updateTransactionStatus on the table: every row with the given
      id and user gets the new status. */
  function WithStatus(ts: seq<Transaction>, userId: string, txId: string, status: bool): (r: seq<Transaction>)
    ensures |r| == |ts|
    ensures forall i :: 0 <= i < |ts| ==>
      r[i] == (if ts[i].id == txId && ts[i].userId == userId then ts[i].(status := status) else ts[i])
  {
    seq(|ts|, i requires 0 <= i < |ts| =>
      if ts[i].id == txId && ts[i].userId == userId then ts[i].(status := status) else ts[i])
  }

  /** A status update changes no field but `status`, and only on the matching rows. */
  lemma WithStatusOnlyStatus(ts: seq<Transaction>, userId: string, txId: string, status: bool, i: nat)
    requires i < |ts|
    ensures WithStatus(ts, userId, txId, status)[i].(status := ts[i].status) == ts[i]
    ensures WithStatus(ts, userId, txId, status)[i].status ==
      (if ts[i].id == txId && ts[i].userId == userId then status else ts[i].status)
  {
  }

  /** A status update keeps every transaction's rows balanced: it changes no id and no detail row. */
  lemma {:induction false} StatusKeepsLedgerBalanced(s: Store, userId: string, txId: string, status: bool)
    requires LedgerBalanced(s)
    ensures LedgerBalanced(Store(WithStatus(s.transactions, userId, txId, status), s.details))
  {
    var ts := WithStatus(s.transactions, userId, txId, status);
    forall t | t in ts
      ensures TxBalanced(s.details, t.id)
    {
      var i :| 0 <= i < |ts| && ts[i] == t;
      assert t.id == s.transactions[i].id;
      assert s.transactions[i] in s.transactions;
    }
  }

  /** The database as the ledger logic sees it. */
  class Ledger {
    var transactions: seq<Transaction>
    var details: seq<DetailRow>

    constructor ()
      ensures transactions == [] && details == []
    {
      transactions := [];
      details := [];
    }

    function Snapshot(): Store
      reads this
    {
      Store(transactions, details)
    }

    /** createTransaction: check the balance, insert the header, build one detail
        row per line, insert the rows. */
    method CreateTransaction(description: string, date: string, lines: seq<TransactionInput>,
                             txType: TransactionType, referenceNumber: Option<string>, env: PostEnv)
      returns (r: PostResult)
      modifies this
      ensures Outcome(r, Snapshot()) == Post(old(Snapshot()), description, date, lines, txType, referenceNumber, env)
    {
      var totalDebit := TotalDebit(lines);
      var totalCredit := TotalCredit(lines);
      if Abs(totalDebit - totalCredit) > Tolerance {
        return PostFailed(Unbalanced(totalDebit, totalCredit));
      }
      if !env.headerInsertOk {
        return PostFailed(StorageError);
      }
      transactions := transactions + [Transaction(env.newId, env.userId, env.periodId, description, date,
                                                  totalDebit, txType, referenceNumber, true)];
      var rows: seq<DetailRow> := [];
      for i := 0 to |lines|
        invariant DetailRows(lines[..i], env.userId, env.newId, env.accountIds) == Some(rows)
      {
        var line := lines[i];
        assert lines[..i + 1][..i] == lines[..i];
        if line.accountCode !in env.accountIds {
          assert DetailRows(lines, env.userId, env.newId, env.accountIds) == None;
          return PostFailed(StorageError);
        }
        rows := rows + [RowFor(line, env.userId, env.newId, env.accountIds[line.accountCode])];
      }
      assert lines[..|lines|] == lines;
      if !env.detailsInsertOk {
        return PostFailed(StorageError);
      }
      details := details + rows;
      r := Posted(env.newId);
    }

    /** updateTransactionStatus: set the status of the user's transaction with this
        id; a failing update leaves the table as it was. */
    method UpdateTransactionStatus(userId: string, txId: string, status: bool, updateOk: bool)
      returns (ok: bool)
      modifies this
      ensures ok == updateOk
      ensures details == old(details)
      ensures transactions == if updateOk then WithStatus(old(transactions), userId, txId, status)
                              else old(transactions)
    {
      if !updateOk {
        return false;
      }
      transactions := WithStatus(transactions, userId, txId, status);
      ok := true;
    }

    /** deleteTransaction: a soft delete, exactly updateTransactionStatus(id, false). */
    method DeleteTransaction(userId: string, txId: string, updateOk: bool) returns (ok: bool)
      modifies this
      ensures ok == updateOk
      ensures details == old(details)
      ensures transactions == if updateOk then WithStatus(old(transactions), userId, txId, false)
                              else old(transactions)
    {
      ok := UpdateTransactionStatus(userId, txId, false, updateOk);
    }
  }
}
