/** The journal-entry form (components/journal/transaction-form.tsx): a list of at
    least two lines that the user edits, a balance gate and the pre-submit checks
    before the lines go to createTransaction. Amounts are integer cents. */
module TransactionForm {
  import opened Common
  import opened TransactionService

  /** One editable line. `accountCode` is what `parseInt` produced; None stands for NaN. */
  datatype FormLine = FormLine(id: string, accountCode: Option<int>, debit: int, credit: int)

  /** The fields `updateLine` is called with. */
  datatype Field = AccountCodeField | DebitField | CreditField

  const MinLines: nat := 2

  function BlankLine(id: string): FormLine {
    FormLine(id, Some(0), 0, 0)
  }

  const InitialLines: seq<FormLine> := [BlankLine("1"), BlankLine("2")]

  function FormDebit(lines: seq<FormLine>): int {
    if lines == [] then 0 else FormDebit(lines[..|lines| - 1]) + lines[|lines| - 1].debit
  }

  function FormCredit(lines: seq<FormLine>): int {
    if lines == [] then 0 else FormCredit(lines[..|lines| - 1]) + lines[|lines| - 1].credit
  }

  /** `difference < 0.01`: in whole cents, no difference at all. */
  predicate FormBalanced(lines: seq<FormLine>) {
    Abs(FormDebit(lines) - FormCredit(lines)) < 1
  }

  lemma FormBalancedIff(lines: seq<FormLine>)
    ensures FormBalanced(lines) <==> FormDebit(lines) == FormCredit(lines)
  {
  }

  lemma {:induction false} FormTotalsAppend(a: seq<FormLine>, b: seq<FormLine>)
    ensures FormDebit(a + b) == FormDebit(a) + FormDebit(b)
    ensures FormCredit(a + b) == FormCredit(a) + FormCredit(b)
    decreases |b|
  {
    if b == [] {
      assert a + b == a;
    } else {
      assert (a + b)[..|a + b| - 1] == a + b[..|b| - 1];
      FormTotalsAppend(a, b[..|b| - 1]);
    }
  }

  predicate UniqueIds(lines: seq<FormLine>) {
    forall i, j :: 0 <= i < j < |lines| ==> lines[i].id != lines[j].id
  }

  predicate HasId(lines: seq<FormLine>, id: string) {
    exists i :: 0 <= i < |lines| && lines[i].id == id
  }

  /** `lines.filter((line) => line.id !== id)`. */
  function WithoutId(lines: seq<FormLine>, id: string): (r: seq<FormLine>)
    ensures |r| <= |lines|
    ensures forall x :: x in r ==> x in lines && x.id != id
    ensures forall x :: x in lines && x.id != id ==> x in r
  {
    if lines == [] then []
    else (if lines[0].id == id then [] else [lines[0]]) + WithoutId(lines[1..], id)
  }

  /** Filtering out an id no line has changes nothing. */
  lemma {:induction false} WithoutAbsentId(lines: seq<FormLine>, id: string)
    requires !HasId(lines, id)
    ensures WithoutId(lines, id) == lines
    decreases |lines|
  {
    if lines != [] {
      var rest := lines[1..];
      assert !HasId(rest, id) by {
        forall i | 0 <= i < |rest| ensures rest[i].id != id {
          assert rest[i] == lines[i + 1];
        }
      }
      WithoutAbsentId(rest, id);
      assert lines == [lines[0]] + rest;
    }
  }

  lemma RestUnique(lines: seq<FormLine>)
    requires lines != [] && UniqueIds(lines)
    ensures UniqueIds(lines[1..])
    ensures !HasId(lines[1..], lines[0].id)
  {
    var rest := lines[1..];
    forall i, j | 0 <= i < j < |rest| ensures rest[i].id != rest[j].id {
      assert rest[i] == lines[i + 1] && rest[j] == lines[j + 1];
    }
    forall i | 0 <= i < |rest| ensures rest[i].id != lines[0].id {
      assert rest[i] == lines[i + 1];
    }
  }

  /** With distinct ids the filter removes at most one line, and the ids stay distinct. */
  lemma {:induction false} WithoutIdUnique(lines: seq<FormLine>, id: string)
    requires UniqueIds(lines)
    ensures |WithoutId(lines, id)| >= |lines| - 1
    ensures UniqueIds(WithoutId(lines, id))
    decreases |lines|
  {
    if lines != [] {
      var rest := lines[1..];
      RestUnique(lines);
      WithoutIdUnique(rest, id);
      if lines[0].id == id {
        WithoutAbsentId(rest, id);
      } else {
        var r := WithoutId(rest, id);
        assert forall k :: 0 <= k < |r| ==> r[k] in rest;
        ConsUnique(lines[0], r);
      }
    }
  }

  lemma ConsUnique(a: FormLine, r: seq<FormLine>)
    requires UniqueIds(r)
    requires forall k :: 0 <= k < |r| ==> r[k].id != a.id
    ensures UniqueIds([a] + r)
  {
    var s := [a] + r;
    forall i, j | 0 <= i < j < |s|
      ensures s[i].id != s[j].id
    {
      assert s[j] == r[j - 1];
      if i > 0 {
        assert s[i] == r[i - 1];
      }
    }
  }

  /** The value a field receives: `parseInt(value)` for the account code, and
      `parseFloat(value) || 0` for an amount, so NaN and zero amounts become 0. */
  function Updated(line: FormLine, field: Field, parsed: Option<int>): (r: FormLine)
    ensures r.id == line.id
    ensures field != AccountCodeField ==> r.accountCode == line.accountCode
    ensures field == AccountCodeField ==> r.accountCode == parsed
    ensures field != DebitField ==> r.debit == line.debit
    ensures field == DebitField ==> r.debit == (if parsed.Some? then parsed.value else 0)
    ensures field != CreditField ==> r.credit == line.credit
    ensures field == CreditField ==> r.credit == (if parsed.Some? then parsed.value else 0)
  {
    match field
    case AccountCodeField => line.(accountCode := parsed)
    case DebitField => line.(debit := if parsed.Some? && parsed.value != 0 then parsed.value else 0)
    case CreditField => line.(credit := if parsed.Some? && parsed.value != 0 then parsed.value else 0)
  }

  /** `lines.map(...)`: the lines with this id get the new field value. */
  function UpdateMatching(lines: seq<FormLine>, id: string, field: Field, parsed: Option<int>): (r: seq<FormLine>)
    ensures |r| == |lines|
    ensures forall i :: 0 <= i < |lines| ==>
      r[i] == if lines[i].id == id then Updated(lines[i], field, parsed) else lines[i]
  {
    seq(|lines|, i requires 0 <= i < |lines| =>
      if lines[i].id == id then Updated(lines[i], field, parsed) else lines[i])
  }

  lemma UpdateKeepsIds(lines: seq<FormLine>, id: string, field: Field, parsed: Option<int>)
    ensures UniqueIds(lines) ==> UniqueIds(UpdateMatching(lines, id, field, parsed))
    ensures forall i :: 0 <= i < |lines| ==> UpdateMatching(lines, id, field, parsed)[i].id == lines[i].id
  {
  }

  /** The accounting code has been chosen: `!l.accountCode` is true for NaN and for 0. */
  predicate HasAccount(l: FormLine) {
    l.accountCode.Some? && l.accountCode.value != 0
  }

  function ToInput(l: FormLine): TransactionInput {
    TransactionInput(if l.accountCode.Some? then l.accountCode.value else 0, l.debit, l.credit)
  }

  function ToInputs(lines: seq<FormLine>): (r: seq<TransactionInput>)
    ensures |r| == |lines|
    ensures forall i :: 0 <= i < |lines| ==> r[i] == ToInput(lines[i])
  {
    seq(|lines|, i requires 0 <= i < |lines| => ToInput(lines[i]))
  }

  lemma {:induction false} ToInputsTotals(lines: seq<FormLine>)
    ensures TotalDebit(ToInputs(lines)) == FormDebit(lines)
    ensures TotalCredit(ToInputs(lines)) == FormCredit(lines)
    decreases |lines|
  {
    if lines != [] {
      var p := lines[..|lines| - 1];
      assert ToInputs(lines)[..|lines| - 1] == ToInputs(p);
      ToInputsTotals(p);
    }
  }

  /** What the form sends to createTransaction. */
  datatype Request = Request(
    description: string, date: string, lines: seq<TransactionInput>,
    txType: TransactionType, referenceNumber: Option<string>)

  datatype SubmitCheck = NotBalanced | MissingFields | Send(request: Request)

  /** The pre-submit guards: the balance first, then the description and every line's account. */
  function CheckSubmit(lines: seq<FormLine>, description: string, date: string, referenceNumber: string): (c: SubmitCheck)
    ensures c == NotBalanced <==> !FormBalanced(lines)
    ensures c.Send? <==> FormBalanced(lines) && description != "" && forall i :: 0 <= i < |lines| ==> HasAccount(lines[i])
    ensures c.Send? ==>
      && c.request.txType == Diario && c.request.description == description && c.request.date == date
      && c.request.lines == ToInputs(lines)
      && c.request.referenceNumber == (if referenceNumber == "" then None else Some(referenceNumber))
  {
    if !FormBalanced(lines) then NotBalanced
    else if description == "" || exists i :: 0 <= i < |lines| && !HasAccount(lines[i]) then MissingFields
    else Send(Request(description, date, ToInputs(lines), Diario,
                      if referenceNumber == "" then None else Some(referenceNumber)))
  }

  /** Whatever the form lets through passes the server's balance check too. */
  lemma SentIsServerBalanced(lines: seq<FormLine>, description: string, date: string, referenceNumber: string)
    requires CheckSubmit(lines, description, date, referenceNumber).Send?
    ensures IsBalanced(CheckSubmit(lines, description, date, referenceNumber).request.lines)
  {
    ToInputsTotals(lines);
  }

  /** The converse fails: the server accepts a one-cent difference the form refuses. */
  lemma ServerLooserThanForm()
    ensures var lines := [FormLine("1", Some(110101), 100, 0), FormLine("2", Some(410101), 0, 99)];
      !FormBalanced(lines) && IsBalanced(ToInputs(lines))
  {
    var lines := [FormLine("1", Some(110101), 100, 0), FormLine("2", Some(410101), 0, 99)];
    assert lines[..1] == [lines[0]];
    assert [lines[0]][..0] == [];
    ToInputsTotals(lines);
  }

  datatype SubmitOutcome = Refused(reason: SubmitCheck) | Submitted(result: PostResult)

  /** The form's state: the line list and the header fields. */
  class TransactionFormState {
    var description: string
    var date: string
    var referenceNumber: string
    var lines: seq<FormLine>

    /** The state the component starts with; `today` stands for the current date. */
    constructor (today: string)
      ensures description == "" && date == today && referenceNumber == ""
      ensures lines == InitialLines
      ensures Valid()
    {
      description := "";
      date := today;
      referenceNumber := "";
      lines := InitialLines;
    }

    /** At least two lines, with distinct ids. */
    predicate Valid()
      reads this
    {
      |lines| >= MinLines && UniqueIds(lines)
    }

    function IsBalanced(): bool
      reads this
    {
      FormBalanced(lines)
    }

    /** `addLine`: one blank line at the end; `newId` stands for `Date.now().toString()`. */
    method AddLine(newId: string)
      modifies this
      ensures lines == old(lines) + [BlankLine(newId)]
      ensures description == old(description) && date == old(date) && referenceNumber == old(referenceNumber)
      ensures old(Valid()) && !HasId(old(lines), newId) ==> Valid()
      ensures FormDebit(lines) == FormDebit(old(lines)) && FormCredit(lines) == FormCredit(old(lines))
    {
      FormTotalsAppend(lines, [BlankLine(newId)]);
      assert [BlankLine(newId)][..0] == [];
      lines := lines + [BlankLine(newId)];
    }

    /** `removeLine`: filters out the line with this id, only while there are more than two. */
    method RemoveLine(id: string)
      modifies this
      ensures lines == if |old(lines)| > MinLines then WithoutId(old(lines), id) else old(lines)
      ensures description == old(description) && date == old(date) && referenceNumber == old(referenceNumber)
      ensures old(Valid()) ==> Valid()
    {
      if |lines| > MinLines {
        if UniqueIds(lines) {
          WithoutIdUnique(lines, id);
        }
        lines := WithoutId(lines, id);
      }
    }

    /** `updateLine`: sets one field of the line with this id; `parsed` is the number
        the input text parses to (None for NaN). */
    method UpdateLine(id: string, field: Field, parsed: Option<int>)
      modifies this
      ensures lines == UpdateMatching(old(lines), id, field, parsed)
      ensures description == old(description) && date == old(date) && referenceNumber == old(referenceNumber)
      ensures old(Valid()) ==> Valid()
    {
      UpdateKeepsIds(lines, id, field, parsed);
      lines := UpdateMatching(lines, id, field, parsed);
    }

    /** `handleSubmit`: runs the guards and, when they pass, posts the lines. */
    method HandleSubmit(ledger: Ledger, env: PostEnv) returns (r: SubmitOutcome)
      modifies ledger
      ensures var c := CheckSubmit(lines, description, date, referenceNumber);
        (!c.Send? ==> r == Refused(c) && unchanged(ledger)) &&
        (c.Send? ==>
           && r.Submitted?
           && Outcome(r.result, ledger.Snapshot()) ==
                Post(old(ledger.Snapshot()), c.request.description, c.request.date, c.request.lines,
                     c.request.txType, c.request.referenceNumber, env))
    {
      var c := CheckSubmit(lines, description, date, referenceNumber);
      if !c.Send? {
        return Refused(c);
      }
      var result := ledger.CreateTransaction(c.request.description, c.request.date, c.request.lines,
                                             c.request.txType, c.request.referenceNumber, env);
      r := Submitted(result);
    }
  }
}
