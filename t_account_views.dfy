/** The two T-account displays: the account modal (components/accounts/t-account-modal.tsx)
    over the service's T-account entries, and the T-accounts card
    (components/financial/t-accounts.tsx) over transaction details. Both sum the debits
    and credits, take the last running balance as the final balance, and split the
    movements into a debit column and a credit column. */
module TAccountViews {
  import opened Common
  import opened ReportsService

  /** `items.reduce((sum, m) => sum + amount(m), 0)`. */
  function Sum<T>(ms: seq<T>, amount: T -> int): int
    decreases |ms|
  {
    if ms == [] then 0 else Sum(ms[..|ms| - 1], amount) + amount(ms[|ms| - 1])
  }

  /** `items.filter((m) => amount(m) > 0)`: the movements on one side of the T. */
  function Column<T>(ms: seq<T>, amount: T -> int): (r: seq<T>)
    ensures |r| <= |ms|
    ensures forall x :: x in r ==> x in ms && amount(x) > 0
    decreases |ms|
  {
    if ms == [] then []
    else Column(ms[..|ms| - 1], amount) + (if amount(ms[|ms| - 1]) > 0 then [ms[|ms| - 1]] else [])
  }

  lemma {:induction false} SumAppend<T>(a: seq<T>, b: seq<T>, amount: T -> int)
    ensures Sum(a + b, amount) == Sum(a, amount) + Sum(b, amount)
    decreases |b|
  {
    if b == [] {
      assert a + b == a;
    } else {
      assert (a + b)[..|a + b| - 1] == a + b[..|b| - 1];
      SumAppend(a, b[..|b| - 1], amount);
    }
  }

  /** The column keeps the order: filtering a concatenation concatenates the filtered parts. */
  lemma {:induction false} ColumnAppend<T>(a: seq<T>, b: seq<T>, amount: T -> int)
    ensures Column(a + b, amount) == Column(a, amount) + Column(b, amount)
    decreases |b|
  {
    if b == [] {
      assert a + b == a;
    } else {
      var b' := b[..|b| - 1];
      assert (a + b)[..|a + b| - 1] == a + b';
      ColumnAppend(a, b', amount);
    }
  }

  /** A column holds exactly the movements with a positive amount on its side. */
  lemma {:induction false} ColumnMembers<T>(ms: seq<T>, amount: T -> int)
    ensures forall x :: x in Column(ms, amount) <==> x in ms && amount(x) > 0
    decreases |ms|
  {
    if ms != [] {
      var p := ms[..|ms| - 1];
      ColumnMembers(p, amount);
      assert ms == p + [ms[|ms| - 1]];
    }
  }

  /** With no negative amounts, the column adds up to the total under it: the
      movements it leaves out contribute nothing. */
  lemma {:induction false} ColumnSum<T>(ms: seq<T>, amount: T -> int)
    requires forall i :: 0 <= i < |ms| ==> amount(ms[i]) >= 0
    ensures Sum(Column(ms, amount), amount) == Sum(ms, amount)
    decreases |ms|
  {
    if ms != [] {
      var p, m := ms[..|ms| - 1], ms[|ms| - 1];
      ColumnSum(p, amount);
      if amount(m) > 0 {
        SumAppend(Column(p, amount), [m], amount);
        assert [m][..0] == [];
      } else {
        assert Column(p, amount) + [] == Column(p, amount);
      }
    }
  }

  /** `items[items.length - 1]?.running_balance || 0`. */
  function LastOr<T>(ms: seq<T>, balance: T -> int): (r: int)
    ensures ms == [] ==> r == 0
    ensures ms != [] ==> r == balance(ms[|ms| - 1])
  {
    if ms == [] then 0 else balance(ms[|ms| - 1])
  }

  function EntryDebit(e: TAccountEntry): int { e.debit }
  function EntryCredit(e: TAccountEntry): int { e.credit }
  function EntryBalance(e: TAccountEntry): int { e.runningBalance }

  /** Each running balance is the debits minus the credits up to and including its row. */
  predicate RunningConsistent(ms: seq<TAccountEntry>) {
    forall i :: 0 <= i < |ms| ==>
      ms[i].runningBalance == Sum(ms[..i + 1], EntryDebit) - Sum(ms[..i + 1], EntryCredit)
  }

  /** When the running balances are consistent, the final balance the modal shows is
      the total debit minus the total credit. */
  lemma FinalIsNet(ms: seq<TAccountEntry>)
    requires RunningConsistent(ms)
    ensures LastOr(ms, EntryBalance) == Sum(ms, EntryDebit) - Sum(ms, EntryCredit)
  {
    if ms != [] {
      assert ms[..|ms|] == ms;
    }
  }

  /** The running-balance cell of one detail row: |balance| marked (D) or (A). */
  datatype BalanceCell = BalanceCell(shown: int, deudor: bool)

  function Cell(e: TAccountEntry): (c: BalanceCell)
    ensures c.deudor <==> e.runningBalance >= 0
    ensures c.shown >= 0 && (c.shown == e.runningBalance || c.shown == -e.runningBalance)
  {
    BalanceCell(Abs(e.runningBalance), e.runningBalance >= 0)
  }

  datatype ModalView = ModalView(
    debitColumn: seq<TAccountEntry>, creditColumn: seq<TAccountEntry>,
    totalDebit: int, totalCredit: int, finalShown: int, isDeudor: bool, cells: seq<BalanceCell>)

  /** The modal for one account's movements. */
  function RenderModal(ms: seq<TAccountEntry>): (v: ModalView)
    ensures v.debitColumn == Column(ms, EntryDebit) && v.creditColumn == Column(ms, EntryCredit)
    ensures v.totalDebit == Sum(ms, EntryDebit) && v.totalCredit == Sum(ms, EntryCredit)
    ensures v.isDeudor <==> LastOr(ms, EntryBalance) >= 0
    ensures v.finalShown == Abs(LastOr(ms, EntryBalance))
    ensures |v.cells| == |ms| && forall i :: 0 <= i < |ms| ==> v.cells[i] == Cell(ms[i])
  {
    var final := LastOr(ms, EntryBalance);
    ModalView(Column(ms, EntryDebit), Column(ms, EntryCredit), Sum(ms, EntryDebit), Sum(ms, EntryCredit),
              Abs(final), final >= 0, seq(|ms|, i requires 0 <= i < |ms| => Cell(ms[i])))
  }

  /** With consistent running balances and no negative amounts, each column adds up to
      the total printed under it, and the modal reads "Saldo Deudor" exactly when the
      debits reach the credits. */
  lemma ModalConsistent(ms: seq<TAccountEntry>)
    requires RunningConsistent(ms)
    requires forall i :: 0 <= i < |ms| ==> ms[i].debit >= 0 && ms[i].credit >= 0
    ensures var v := RenderModal(ms);
      && Sum(v.debitColumn, EntryDebit) == v.totalDebit
      && Sum(v.creditColumn, EntryCredit) == v.totalCredit
      && (v.isDeudor <==> v.totalDebit >= v.totalCredit)
  {
    ColumnSum(ms, EntryDebit);
    ColumnSum(ms, EntryCredit);
    FinalIsNet(ms);
  }

  /** An item of the T-accounts card: a transaction detail. Its running balance is
      optional (`running_balance` may be absent; `|| 0` reads it as 0). */
  datatype CardItem = CardItem(id: string, description: string, debit: int, credit: int, runningBalance: Option<int>)

  function ItemDebit(t: CardItem): int { t.debit }
  function ItemCredit(t: CardItem): int { t.credit }
  function ItemBalance(t: CardItem): int { OrZero(t.runningBalance) }

  datatype CardView = CardView(
    debitColumn: seq<CardItem>, creditColumn: seq<CardItem>,
    totalDebit: int, totalCredit: int, finalShown: int, acreedor: bool)

  function RenderCard(ts: seq<CardItem>): (v: CardView)
    ensures v.debitColumn == Column(ts, ItemDebit) && v.creditColumn == Column(ts, ItemCredit)
    ensures v.totalDebit == Sum(ts, ItemDebit) && v.totalCredit == Sum(ts, ItemCredit)
    ensures v.acreedor <==> LastOr(ts, ItemBalance) < 0
    ensures v.finalShown == Abs(LastOr(ts, ItemBalance))
  {
    var final := LastOr(ts, ItemBalance);
    CardView(Column(ts, ItemDebit), Column(ts, ItemCredit), Sum(ts, ItemDebit), Sum(ts, ItemCredit),
             Abs(final), final < 0)
  }

  /** Without a running balance on the last item the card shows 0 "(Deudor)". */
  lemma CardWithoutBalance(ts: seq<CardItem>)
    requires ts == [] || ts[|ts| - 1].runningBalance.None?
    ensures RenderCard(ts).finalShown == 0 && !RenderCard(ts).acreedor
  {
  }
}
