/** One-click journal entries (components/journal/quick-entry.tsx): six fixed
    templates of one debit and one credit entry with unit multipliers, scaled by the
    amount the user types. Amounts are integer cents. */
module QuickEntry {
  import opened Common
  import opened TransactionService

  datatype Template = Template(id: string, name: string, description: string, entries: seq<TransactionInput>)

  function Pair(debitCode: int, creditCode: int): seq<TransactionInput> {
    [TransactionInput(debitCode, 1, 0), TransactionInput(creditCode, 0, 1)]
  }

  const Templates: seq<Template> := [
    Template("cash-sale", "Venta de Contado", "Registrar una venta al contado", Pair(1101, 4101)),
    Template("purchase", "Compra a Crédito", "Registrar compra a proveedores", Pair(1105, 2101)),
    Template("expense", "Gasto en Efectivo", "Pago de gastos en efectivo", Pair(520201, 1101)),
    Template("payment", "Pago a Proveedores", "Pago de deudas a proveedores", Pair(2101, 1102)),
    Template("collection", "Cobro a Clientes", "Cobro de cuentas por cobrar", Pair(1102, 1103)),
    Template("salary", "Pago de Sueldos", "Pago de sueldos a empleados", Pair(520201, 1102))]

  /** Exactly one entry with a debit and no credit, exactly one with a credit and no
      debit, and equal multipliers: the debit total equals the credit total. */
  lemma TemplatesBalanced(i: int)
    requires 0 <= i < |Templates|
    ensures var es := Templates[i].entries;
      |es| == 2 && es[0].debit > 0 && es[0].credit == 0 && es[1].credit > 0 && es[1].debit == 0
      && es[0].debit == es[1].credit
      && TotalDebit(es) == TotalCredit(es)
  {
    var es := Templates[i].entries;
    assert es[..1] == [es[0]];
    assert [es[0]][..0] == [];
  }

  /** `entry.debit * parsedAmount`, `entry.credit * parsedAmount`, entry by entry. */
  function Scale(entries: seq<TransactionInput>, amount: int): (r: seq<TransactionInput>)
    ensures |r| == |entries|
    ensures forall i :: 0 <= i < |entries| ==>
      r[i].accountCode == entries[i].accountCode &&
      r[i].debit == entries[i].debit * amount && r[i].credit == entries[i].credit * amount
  {
    seq(|entries|, i requires 0 <= i < |entries| =>
      TransactionInput(entries[i].accountCode, entries[i].debit * amount, entries[i].credit * amount))
  }

  /** Scaling multiplies both totals by the amount. */
  lemma {:induction false} ScaleTotals(entries: seq<TransactionInput>, amount: int)
    ensures TotalDebit(Scale(entries, amount)) == TotalDebit(entries) * amount
    ensures TotalCredit(Scale(entries, amount)) == TotalCredit(entries) * amount
    decreases |entries|
  {
    if entries != [] {
      var p := entries[..|entries| - 1];
      assert Scale(entries, amount)[..|entries| - 1] == Scale(p, amount);
      ScaleTotals(p, amount);
      var last := entries[|entries| - 1];
      calc {
        TotalDebit(Scale(entries, amount));
        TotalDebit(p) * amount + last.debit * amount;
        (TotalDebit(p) + last.debit) * amount;
      }
      calc {
        TotalCredit(Scale(entries, amount));
        TotalCredit(p) * amount + last.credit * amount;
        (TotalCredit(p) + last.credit) * amount;
      }
    }
  }

  /** Balanced entries stay exactly balanced when scaled. */
  lemma ScaleKeepsBalance(entries: seq<TransactionInput>, amount: int)
    requires TotalDebit(entries) == TotalCredit(entries)
    ensures TotalDebit(Scale(entries, amount)) == TotalCredit(Scale(entries, amount))
    ensures IsBalanced(Scale(entries, amount))
  {
    ScaleTotals(entries, amount);
  }

  /** The answer of the amount prompt: cancelled (null), empty, not a number, or a
      number in cents. */
  datatype AmountAnswer = Cancelled | EmptyAnswer | NotANumber | Amount(cents: int)

  datatype QuickRequest = QuickRequest(
    description: string, date: string, entries: seq<TransactionInput>, txType: TransactionType)

  datatype QuickResult = Aborted | AmountNotPositive | Send(request: QuickRequest)

  /** `handleQuickEntry` up to the call of createTransaction: the amount guards, the
      description defaulting to the template's name, and the scaling. `description`
      is the answer of the second prompt (None when cancelled); `today` stands for
      the current date. */
  function HandleQuickEntry(t: Template, answer: AmountAnswer, description: Option<string>, today: string): (r: QuickResult)
    ensures r == Aborted <==> !answer.Amount?
    ensures r == AmountNotPositive <==> answer.Amount? && answer.cents <= 0
    ensures r.Send? ==>
      && answer.Amount? && answer.cents > 0
      && r.request.entries == Scale(t.entries, answer.cents)
      && r.request.txType == Diario && r.request.date == today
      && r.request.description == (if description.Some? && description.value != "" then description.value else t.name)
  {
    match answer
    case Amount(cents) =>
      if cents <= 0 then AmountNotPositive
      else
        var d := if description.Some? && description.value != "" then description.value else t.name;
        Send(QuickRequest(d, today, Scale(t.entries, cents), Diario))
    case _ => Aborted
  }

  /** Every request a template produces passes the server's balance check, with one
      debit and one credit of the typed amount on the template's two accounts. */
  lemma QuickEntryBalanced(i: int, answer: AmountAnswer, description: Option<string>, today: string)
    requires 0 <= i < |Templates|
    requires HandleQuickEntry(Templates[i], answer, description, today).Send?
    ensures var es := HandleQuickEntry(Templates[i], answer, description, today).request.entries;
      && IsBalanced(es)
      && |es| == 2 && es[0].debit == answer.cents && es[1].credit == answer.cents
      && es[0].accountCode == Templates[i].entries[0].accountCode
      && es[1].accountCode == Templates[i].entries[1].accountCode
  {
    TemplatesBalanced(i);
    ScaleKeepsBalance(Templates[i].entries, answer.cents);
  }
}
