# Double-entry ledger core of a small accounting application

This project models the ledger logic of a web accounting application in Dafny and proves its properties.
The application keeps a journal of transactions. Each transaction has a header and detail lines that debit and credit a chart of accounts.
Accounting periods are closed by a CIERRE transaction. Statements are assembled from database views.

Money is integer cents. The server accepts a posting when debits and credits differ by at most one cent: it rejects a difference `> 0.01`.
The journal form requires no difference at all: it requires `< 0.01`. The model keeps that mismatch and proves it, in `TransactionForm.ServerLooserThanForm`.
Ratios, percentages and margins are `real`.

Database queries, inserts and remote procedures are not executed. Their answers are inputs:
- rows arrive as sequences in the order the query returns them;
- a failing query is `None` or a `false` flag;
- the outcomes of the writes of one call are a `PostEnv` or `CloseEnv` value.

The two tables that the services change, `transactions` and `transaction_details`, are the fields of the class `TransactionService.Ledger`.
The line list of the journal form is the field of the class `TransactionForm.TransactionFormState`.

Modules, one per source file:
- `TransactionService`: posting, status update and soft delete (lib/services/transaction-service.ts).
- `ClosingService`: closing lines, close, reopen and the closing status (lib/services/closing-service.ts).
- `ReportsService`: the balance-sheet scan, the income-statement bucketing, the T-account mapping and grouping, and the executive-summary totals (lib/services/reports-service.ts).
- `DashboardService`: account type and name, the metrics, the account summary, the recent-transaction tags and the monthly chart (lib/services/dashboard-service.ts).
- `TransactionForm`: the journal-entry form (components/journal/transaction-form.tsx).
- `QuickEntry`: the one-click templates (components/journal/quick-entry.tsx).
- `BalanceSheetView`, `IncomeStatementView`, `ExecutiveSummaryView` and `TAccountViews`: the figures the statement cards and the T-account displays derive.
- `FormatUtils`: `formatAccountCode`.
- `Common`: helpers shared by the modules above.

Three behaviours of the code that the model keeps as they are:
- `createTransaction` validates only the balance. It does not check account activity, the date range or whether the period is closed. Accounts are resolved by `get_or_create_account`, which creates missing ones.
- Posting is not atomic. The header is inserted first and stays written when the detail insert fails (`TransactionService.PostPartialFailure`).
- `closePeriod` fails with "nothing to close" only when it builds no line at all. So a nonzero net income alone, with no positive temporary balance, still posts one equity line (`ClosingService.ClosingLinesEmptyIff`).

## Model

| member | source | states |
|---|---|---|
| TransactionService.TotalsAppend | lib/services/transaction-service.ts:53-54 | The debit and credit totals of a concatenation are the sums of the parts' totals. |
| TransactionService.TotalsPermutation | lib/services/transaction-service.ts:53-54 | Any reordering of the lines gives the same two totals, so only the two sums decide the balance check. |
| TransactionService.DetailRows | lib/services/transaction-service.ts:81-95 | Rows exist iff every line's account code resolves. Then there is one row per line, in input order. Row i carries line i's debit and credit, and its total is the debit when nonzero, otherwise the credit. |
| TransactionService.DetailRowsTotals | lib/services/transaction-service.ts:83-95 | The detail rows carry exactly the debit and credit totals of the input lines. |
| TransactionService.Post | lib/services/transaction-service.ts:40-114 | An unbalanced posting (more than 1 cent apart) fails with its two totals and writes nothing. Success carries the new id and holds iff the lines balance and the header insert, every account lookup and the detail insert all succeed. At most one header is added, and detail rows are added only on success. |
| TransactionService.PostSuccess | lib/services/transaction-service.ts:63-101 | On success one header is appended with amount = total debit and status active. One detail row per line is appended in input order, after the untouched old rows. |
| TransactionService.PostPartialFailure | lib/services/transaction-service.ts:63-101 | When the header is written but an account lookup or the detail insert fails, the result is a storage failure. The header stays in the table and no detail row is added. |
| TransactionService.PostKeepsLedgerBalanced | lib/services/transaction-service.ts:52-101 | Posting under a fresh id keeps every transaction's detail rows balanced within 1 cent, whether the posting succeeds, fails early or fails halfway. |
| TransactionService.WithStatusOnlyStatus | lib/services/transaction-service.ts:228-232 | A status update changes no field but `status`, and changes it only on the rows with this id and user. |
| TransactionService.StatusKeepsLedgerBalanced | lib/services/transaction-service.ts:220-244 | A status update keeps every transaction balanced: it changes no id and no detail row. |
| TransactionService.Ledger.CreateTransaction | lib/services/transaction-service.ts:40-114 | The loop-built detail rows and the header-then-details writes leave the tables and the result exactly as `Post` describes from the old tables. |
| TransactionService.Ledger.UpdateTransactionStatus | lib/services/transaction-service.ts:220-244 | On success the matching rows get the new status and nothing else changes. On a failed update the tables are as before and the result is false. |
| TransactionService.Ledger.DeleteTransaction | lib/services/transaction-service.ts:249-251 | A soft delete: exactly a status update to false, with no row removed. |
| ClosingService.ClosedIffClosingIds | lib/services/closing-service.ts:132-170 | checkPeriodClosed (an active CIERRE transaction of the user in the period, false when its query fails) reads closed exactly when reopenPeriod's lookup finds a closing transaction. |
| ClosingService.ClosingLinesAppend | lib/services/closing-service.ts:50-73 | The revenue and expense line lists follow the balances in input order: the lines of a concatenation are the concatenation of the lines. |
| ClosingService.ClosingLinesSingle | lib/services/closing-service.ts:50-73 | A positive INGRESO balance gives one debit line of that balance. A positive GASTO or COSTO balance gives one credit line. Any other account gives no line. |
| ClosingService.ClosingLinesTotals | lib/services/closing-service.ts:47-88 | The closing lines debit the positive revenues plus any loss and credit the positive expenses and costs plus any profit. |
| ClosingService.ClosingBalancedIff | lib/services/closing-service.ts:43-105 | The CIERRE lines pass the posting balance check iff netIncome lies within 1 cent of positive revenues minus positive expenses and costs. |
| ClosingService.ClosingLinesEmptyIff | lib/services/closing-service.ts:76-96 | No closing line results iff netIncome is 0 and no account has a positive temporary balance. |
| ClosingService.BuildClosingLines | lib/services/closing-service.ts:47-88 | The two loops and the equity branch build the revenue lines first, then the expense and cost lines, then the equity line (3100 credit of a profit or 3110 debit of a loss). |
| ClosingService.CloseInto | lib/services/closing-service.ts:21-127 | A missing period fails with PeriodNotFound and an already closed period with AlreadyClosed, both before anything is written. After those guards, failing balances give Unexpected and no closing line gives NothingToClose, with nothing written. Otherwise the store is that of posting a CIERRE transaction "Cierre del período <name>" with the closing lines, recorded under the target period; its id or its error becomes the result. Success implies the period was open and the books agree with netIncome within 1 cent. |
| ClosingService.CloseThenClosed | lib/services/closing-service.ts:100-105 | After a successful close into the period being closed, that period reads as closed. |
| ClosingService.CloseSucceeds | lib/services/closing-service.ts:21-119 | Whatever period the closing transaction goes under, the close returns the new transaction id and netIncome when the guards pass, lines exist, the books agree with netIncome and every write succeeds. |
| ClosingService.CloseKeepsLedgerBalanced | lib/services/closing-service.ts:98-105 | Closing under a fresh id, into any period, keeps every transaction's detail rows balanced. |
| ClosingService.CloseAsWrittenLeavesPastPeriodOpen | lib/services/closing-service.ts:100-105 | As written, closing a period other than the current one succeeds and still leaves that period open. |
| ClosingService.ClosingIds | lib/services/closing-service.ts:162-170 | The list of the period's active CIERRE ids is empty iff the period is not closed. |
| ClosingService.ClosingIdsSound | lib/services/closing-service.ts:162-170 | Every listed id belongs to an active CIERRE transaction of the user in the period. |
| ClosingService.ClosingIdsComplete | lib/services/closing-service.ts:162-170 | Every active CIERRE transaction of the user in the period is listed. |
| ClosingService.Reopen | lib/services/closing-service.ts:157-201 | Reopened iff the lookup finds exactly one active CIERRE transaction (`single`) and the update succeeds. The new table then has that id's rows set to status false, and nothing else changed. Otherwise the table is unchanged, and an open period gives NoClosingTransaction. |
| ClosingService.ReopenChangesOnlyClosing | lib/services/closing-service.ts:163-183 | With distinct ids, a successful reopen changes only the period's single active CIERRE transaction, and only its status, to false. Every other row stays as it was. |
| ClosingService.ReopenOpens | lib/services/closing-service.ts:179-183 | After a successful reopen the period no longer reads as closed. |
| ClosingService.CloseThenReopen | lib/services/closing-service.ts:157-201 | Reopening right after a close succeeds and the period is open again. Every earlier transaction is as before, and the closing transaction is now inactive. |
| ClosingService.ClosedPeriodsIff | lib/services/closing-service.ts:213-223 | A requested period is in the set of closed periods iff it has an active CIERRE transaction of the user. |
| ClosingService.GetPeriodsClosingStatus | lib/services/closing-service.ts:206-235 | The keys are exactly the requested ids, and each value is true iff that period is closed. A failing query gives the empty object. |
| ClosingService.ClosePeriod | lib/services/closing-service.ts:21-127 | The method over the ledger has exactly the effect and result of `CloseAsWritten` on the old tables: the closing transaction goes under the current period, as createTransaction files it. |
| ClosingService.ReopenPeriod | lib/services/closing-service.ts:157-201 | The method over the ledger has exactly the effect and result of `Reopen` and leaves the detail rows alone. |
| ReportsService.SectionsHeadings | lib/services/reports-service.ts:78-91 | The scan yields one section per level-1 row, in order, carrying that row's code, name and level. |
| ReportsService.SectionsSubtotals | lib/services/reports-service.ts:93-104 | Each section's subtotal is the sum of its accounts' balances. |
| ReportsService.SectionsAccounts | lib/services/reports-service.ts:78-117 | The accounts of all sections, section after section, are exactly the level-3 rows that follow some level-1 row, in order, and the subtotals add up to their amounts. |
| ReportsService.LeadingRowsDropped | lib/services/reports-service.ts:91 | Rows before the first level-1 row leave no trace in the sections. |
| ReportsService.ScanStep | lib/services/reports-service.ts:78-112 | One row of the scan: a level-1 row opens a section; a level-3 row with an open section joins it and adds its amount to the asset total iff ACTIVO; anything else changes nothing. |
| ReportsService.GetBalanceSheet | lib/services/reports-service.ts:49-134 | The loop returns the scan's sections and, as total, the sum of the ACTIVO level-3 rows that lie in a section. A missing period or a failing query gives the empty statement. |
| ReportsService.OfTypeStep | lib/services/reports-service.ts:171-200 | One more row extends the bucket of its own type, with its amount, iff it is a level-3 row of that type. |
| ReportsService.IncomeIgnores | lib/services/reports-service.ts:171-200 | A row that is not a level-3 INGRESO, COSTO or GASTO row changes neither the sections nor the total. |
| ReportsService.IncomeSectionsWellFormed | lib/services/reports-service.ts:202-231 | Every emitted section has accounts, level 1, and the sum of its accounts' balances as subtotal. |
| ReportsService.IncomeTotalFromSections | lib/services/reports-service.ts:202-233 | The total is the income subtotal minus the cost and expense subtotals, an absent section counting 0. |
| ReportsService.AddRowFields | lib/services/reports-service.ts:172-198 | Each bucket grows by the row iff it is a level-3 row of its type. COSTO and GASTO amounts both go to the expense total. |
| ReportsService.BucketsMeaning | lib/services/reports-service.ts:171-200 | After the loop each bucket holds its type's level-3 rows in order. The income total is the INGRESO sum and the expense total the COSTO plus GASTO sums. |
| ReportsService.IncomeSectionsOf | lib/services/reports-service.ts:202-231 | Only non-empty buckets become sections, in the order 4000, 5100, 5200. |
| ReportsService.GetIncomeStatement | lib/services/reports-service.ts:139-250 | The loop returns the income, cost and expense sections and the total income − (costs + expenses). A missing period or a failing query gives the empty statement. |
| ReportsService.ToEntry | lib/services/reports-service.ts:279-289 | The entry's id is the code and the date joined by "-". Code, name, date, description and reference are the row's, and debit, credit and running balance are the row's numbers, 0 when missing. |
| ReportsService.TAccountMovements | lib/services/reports-service.ts:255-294 | Entry i is the entry of the account's i-th view row, so there is one per row, each carrying the code. The error path gives []. |
| ReportsService.RowsOfAccountMembers | lib/services/reports-service.ts:263-270 | The rows selected for an account are exactly the view rows carrying its code. |
| ReportsService.RowsOfAccountAppend | lib/services/reports-service.ts:263-270 | Selecting an account's rows keeps the view order. |
| ReportsService.TAccountMovementsMembers | lib/services/reports-service.ts:255-294 | An entry is among the movements iff it is the entry of some view row of that account. |
| ReportsService.TAccountMovementsAppend | lib/services/reports-service.ts:255-294 | The movements follow the view order: those of a concatenation of rows are the first part's followed by the second's. |
| ReportsService.GetAllTAccounts | lib/services/reports-service.ts:299-348 | The loop builds the grouping of the rows by code; the error path gives {}. |
| ReportsService.GroupsMeaning | lib/services/reports-service.ts:322-341 | The keys are exactly the codes that occur. Every group is non-empty and is the in-order entry list that getTAccountMovements gives for that code. |
| ReportsService.GuardedRatio | lib/services/reports-service.ts:449-459 | 0 when the denominator is not positive; otherwise the ratio times the denominator is the numerator. |
| ReportsService.SummaryMetrics | lib/services/reports-service.ts:447-459 | netIncome = revenue − expenses and workingCapital = current assets − current liabilities. Each ratio is 0 when its denominator is ≤ 0 and the exact quotient (×100 for the percentages) otherwise. |
| ReportsService.RangeWithinType | lib/services/reports-service.ts:418-433 | With non-negative balances, the current part of a type lies between 0 and that type's total. |
| ReportsService.RangeTotalOutside | lib/services/reports-service.ts:424-431 | Accounts whose code is outside the range contribute nothing to the current part. |
| ReportsService.GetExecutiveSummary | lib/services/reports-service.ts:379-477 | The loop's totals are one sum per type (GASTO and COSTO together), with current assets from ACTIVO codes in [1100, 1200) and current liabilities from PASIVO codes in [2100, 2200). The metrics come from those totals. A missing period or a failing first query gives null. |
| DashboardService.AccountType | lib/services/dashboard-service.ts:85-102 | Asset, liability, equity, revenue and expense iff the code lies in [100000k, 100000(k+1)) for k = 1..5. Other iff the code is below 100000 or at least 600000. |
| DashboardService.AccountName | lib/services/dashboard-service.ts:51-82 | The table's name when the code is in the table, otherwise "Cuenta " followed by the code. |
| DashboardService.NamedCodesAreClassified | lib/services/dashboard-service.ts:51-102 | Every code of the name table has a kind other than "other"; "Costo de ventas" is an expense. |
| DashboardService.MetricsOf | lib/services/dashboard-service.ts:155-164 | The four change fields are always 0. |
| DashboardService.MetricsAppend | lib/services/dashboard-service.ts:130-153 | The metrics of a concatenation are the field-wise sums of the parts' metrics. |
| DashboardService.MetricsCommute | lib/services/dashboard-service.ts:130-153 | The order in which the rows arrive does not change the metrics. |
| DashboardService.MetricsIgnoreUnclassified | lib/services/dashboard-service.ts:130-153 | A row without a code, with code 0 or with an "other" code leaves every total alone. |
| DashboardService.MetricsNet | lib/services/dashboard-service.ts:138-152 | With every row classified, assets − liabilities − revenue + expenses equals total debits − total credits. So each type is signed by its normal side, with equity folded into liabilities. |
| DashboardService.AccountingIdentity | lib/services/dashboard-service.ts:138-152 | For classified, balanced rows: assets − (liabilities + equity) = revenue − expenses. |
| DashboardService.GetDashboardMetrics | lib/services/dashboard-service.ts:104-178 | The loop computes the metrics of the rows; an error gives all zeros. |
| DashboardService.RecentTransactions | lib/services/dashboard-service.ts:180-230 | One output per row, in order, with id, date, description and amount copied. The code is the first detail's code or 0, the account name is getAccountName of that code, and the tag is income iff that code is a revenue code. An error gives []. |
| DashboardService.NoAccountIsExpense | lib/services/dashboard-service.ts:212-222 | A transaction whose first detail has no account is tagged as an expense of account 0 named "Cuenta 0". |
| DashboardService.KeptMembers | lib/services/dashboard-service.ts:255-271 | Every kept row has more than one cent of raw debit − credit balance. Every account with such a balance is kept, and every kept row comes from an input account. |
| DashboardService.InsertSorted | lib/services/dashboard-service.ts:274 | Inserting into a sorted list keeps it sorted by code and adds exactly the new row. |
| DashboardService.SortByCode | lib/services/dashboard-service.ts:274 | The result is ascending by code and a permutation of the input. |
| DashboardService.GetAccountSummary | lib/services/dashboard-service.ts:232-279 | The nested loops give the sorted kept accounts. Every row has more than one cent of balance and the list is ascending by code. An error gives []. |
| DashboardService.SummaryMembers | lib/services/dashboard-service.ts:255-274 | An account's summary row appears in the result iff its raw balance exceeds one cent. |
| DashboardService.EmptyChart | lib/services/dashboard-service.ts:304-313 | Six empty buckets, oldest first, bucket j labelled with month (current − (5 − j) + 12) mod 12. |
| DashboardService.IndexIffLabel | lib/services/dashboard-service.ts:306-343 | A transaction month picks bucket j iff bucket j carries that month's label. |
| DashboardService.ChartIndexMatchesLabel | lib/services/dashboard-service.ts:306-343 | A counted transaction lands in the bucket labelled with its month, and every transaction whose month is one of the six labels is counted. |
| DashboardService.ChartIndexAsWrittenSameYear | lib/services/dashboard-service.ts:340-341 | Within one calendar year the index as written and the corrected index agree. |
| DashboardService.ChartIndexAsWrittenDropsDecember | lib/services/dashboard-service.ts:340-343 | In February, bucket 3 is labelled "Dic", yet the index as written for a December transaction is 15. |
| DashboardService.BucketStep | lib/services/dashboard-service.ts:338-358 | One more transaction adds its revenue and expense amounts to bucket j iff the index rule (as written: `5 - monthDiff`; or the intended one) gives j, and to no other bucket. |
| DashboardService.OutsideWindowIgnored | lib/services/dashboard-service.ts:338-358 | Under either index rule, a transaction whose month is not among the six labels adds nothing to any bucket. |
| DashboardService.AsWrittenIffLabel | lib/services/dashboard-service.ts:306-343 | The index as written picks bucket j iff bucket j carries the transaction month's label and that month is not later in the calendar year than the current one. |
| DashboardService.TxLandsAsWritten | lib/services/dashboard-service.ts:338-358 | As written, a transaction counts in the bucket labelled with its month when that month is not later in the year than the current one, and otherwise in no bucket. |
| DashboardService.AsWrittenDropsPreviousYear | lib/services/dashboard-service.ts:338-358 | As written, a transaction from a month later in the year than the current one (the previous year) adds nothing to any bucket. |
| DashboardService.TxLandsInOwnMonth | lib/services/dashboard-service.ts:306-343 | With the intended index a transaction counts in the bucket labelled with its own month and in no other. |
| DashboardService.AddDetails | lib/services/dashboard-service.ts:344-356 | The inner loop adds each revenue detail's amount (credit, else debit) to bucket idx's revenue and each expense detail's to its expenses. The other buckets stay as they were. |
| DashboardService.GetMonthlyChartData | lib/services/dashboard-service.ts:281-365 | Six buckets, each labelled with its month. Each holds the revenue and expense amounts of the transactions whose index as written, `5 - (currentMonth - month)`, names it: those of its month, unless that month lies in the previous year. An error gives []. |
| TransactionForm.FormBalancedIff | components/journal/transaction-form.tsx:51-54 | The form is balanced iff the debit total equals the credit total to the cent. |
| TransactionForm.ServerLooserThanForm | components/journal/transaction-form.tsx:51-54 | A one-cent difference is refused by the form and accepted by the server. |
| TransactionForm.WithoutId | components/journal/transaction-form.tsx:70 | The filtered list holds exactly the lines whose id differs. |
| TransactionForm.WithoutAbsentId | components/journal/transaction-form.tsx:70 | Filtering out an id that no line has changes nothing. |
| TransactionForm.WithoutIdUnique | components/journal/transaction-form.tsx:68-72 | With distinct ids the filter removes at most one line and the ids stay distinct. |
| TransactionForm.Updated | components/journal/transaction-form.tsx:74-88 | Only the named field changes. The account code takes the parsed value (possibly NaN); an amount takes the parsed value, with NaN becoming 0. |
| TransactionForm.UpdateMatching | components/journal/transaction-form.tsx:74-88 | The same number of lines; the lines with the id are updated and all others are untouched. |
| TransactionForm.UpdateKeepsIds | components/journal/transaction-form.tsx:74-88 | No line's id changes, so distinct ids stay distinct. |
| TransactionForm.ToInputsTotals | components/journal/transaction-form.tsx:109-113 | The lines sent to the server carry the form's debit and credit totals. |
| TransactionForm.CheckSubmit | components/journal/transaction-form.tsx:90-116 | An unbalanced form is refused first. The lines are sent iff the form is balanced, the description is non-empty and every line has an account other than 0 or NaN. They are sent as DIARIO with the description, the form's date, and the reference number only when non-empty. |
| TransactionForm.SentIsServerBalanced | components/journal/transaction-form.tsx:93-116 | Whatever the form lets through passes the server's balance check. |
| TransactionForm.TransactionFormState.constructor | components/journal/transaction-form.tsx:43-49 | The form starts with two blank lines (ids "1" and "2", account 0, amounts 0), an empty description and today's date. |
| TransactionForm.TransactionFormState.AddLine | components/journal/transaction-form.tsx:56-66 | One blank line is appended and every other line and field is kept. The totals are unchanged, and with a fresh id the invariant (at least two lines, distinct ids) is kept. |
| TransactionForm.TransactionFormState.RemoveLine | components/journal/transaction-form.tsx:68-72 | The line is filtered out only while there are more than two lines, so the invariant of at least two lines with distinct ids is kept. |
| TransactionForm.TransactionFormState.UpdateLine | components/journal/transaction-form.tsx:74-88 | The lines become the updated lines, the other fields are kept, and the invariant is kept. |
| TransactionForm.TransactionFormState.HandleSubmit | components/journal/transaction-form.tsx:90-129 | A refused submit leaves the ledger untouched. Otherwise the ledger changes exactly as the posting of the checked request. |
| QuickEntry.TemplatesBalanced | components/journal/quick-entry.tsx:40-101 | Every template has one debit-only entry and one credit-only entry with equal multipliers, so its totals are equal. |
| QuickEntry.Scale | components/journal/quick-entry.tsx:121-125 | Scaling keeps the number, order and accounts of the entries and multiplies each amount by the parsed amount. |
| QuickEntry.ScaleTotals | components/journal/quick-entry.tsx:121-125 | Scaling multiplies both totals by the amount. |
| QuickEntry.ScaleKeepsBalance | components/journal/quick-entry.tsx:121-125 | Balanced entries stay exactly balanced when scaled. |
| QuickEntry.HandleQuickEntry | components/journal/quick-entry.tsx:103-132 | A cancelled, empty or non-numeric amount aborts and an amount ≤ 0 aborts with the alert; only a positive amount sends. The request carries the scaled entries as DIARIO dated today, with the typed description or else the template's name. |
| QuickEntry.QuickEntryBalanced | components/journal/quick-entry.tsx:103-132 | Every request a template sends passes the server's balance check. It debits the first account and credits the second by exactly the typed amount. |
| BalanceSheetView.AssetSections | components/financial/balance-sheet.tsx:36 | Only sections whose name contains "ACTIVO", taken from the input. |
| BalanceSheetView.OtherSections | components/financial/balance-sheet.tsx:37-39 | Only sections whose name does not contain "ACTIVO", taken from the input. |
| BalanceSheetView.FiltersAppend | components/financial/balance-sheet.tsx:36-39 | Both columns keep the input order: filtering a concatenation concatenates the filtered parts. |
| BalanceSheetView.ColumnsPartition | components/financial/balance-sheet.tsx:36-39 | The two columns partition the sections: together they hold each section exactly once. |
| BalanceSheetView.ColumnsTotal | components/financial/balance-sheet.tsx:41-48 | The two column totals add up to the sum of all subtotals. |
| BalanceSheetView.RenderBalanceSheet | components/financial/balance-sheet.tsx:23-153 | No data or no sections gives the no-data card. Otherwise each column's total is its sections' subtotal sum, the difference is assets − liabilities-and-equity, and it shows as balanced iff the difference is 0 cents. |
| BalanceSheetView.SheetTotals | components/financial/balance-sheet.tsx:41-48 | On a rendered sheet the two totals add up to the sum of all section subtotals. |
| IncomeStatementView.FindSpec | components/financial/income-statement.tsx:25-27 | The lookup gives nothing iff no section name contains the key, and otherwise the first section whose name does. |
| IncomeStatementView.FindAppend | components/financial/income-statement.tsx:25-27 | Looking up in a concatenation finds in the first part when it can, else in the second. |
| IncomeStatementView.Margin | components/financial/income-statement.tsx:140-163 | 0 unless total revenues are positive; otherwise the margin times revenues is 100 × the figure. |
| IncomeStatementView.RenderIncomeStatement | components/financial/income-statement.tsx:13-163 | No data or no sections gives the no-data card. Otherwise: each section is the first whose name contains INGRESO, COSTO or GASTO, and a missing one counts 0; grossProfit = revenues − costs and operatingIncome = grossProfit − expenses; the label is UTILIDAD NETA iff operatingIncome ≥ 0, showing |operatingIncome|; the three margins are guarded. |
| IncomeStatementView.RevenueLookup | components/financial/income-statement.tsx:25-31 | On a service statement the card finds as revenues the sum of the INGRESO rows, 0 when absent. |
| IncomeStatementView.CostLookup | components/financial/income-statement.tsx:25-31 | On a service statement the card finds as costs the sum of the COSTO rows, 0 when absent. |
| IncomeStatementView.ExpenseLookup | components/financial/income-statement.tsx:25-31 | On a service statement the card finds as expenses the sum of the GASTO rows, 0 when absent. |
| IncomeStatementView.ViewOfServiceStatement | components/financial/income-statement.tsx:25-33 | The card's operating income equals the total the service computed for the same rows. |
| ExecutiveSummaryView.LiquidityRating | components/financial/executive-summary.tsx:224-236 | Green ("Excelente") iff the current ratio is ≥ 1.5 and red ("Baja") iff it is < 1; yellow ("Buena") otherwise. |
| ExecutiveSummaryView.DebtRating | components/financial/executive-summary.tsx:253-266 | Green ("Bajo") iff debt to equity is ≤ 0.5 and red ("Alto") iff it is > 1; yellow ("Moderado") otherwise. |
| ExecutiveSummaryView.ProfitabilityRating | components/financial/executive-summary.tsx:283-296 | Green ("Alta") iff the margin is ≥ 10 and red ("Baja") iff it is < 5; yellow ("Media") otherwise. |
| ExecutiveSummaryView.RatingsMonotone | components/financial/executive-summary.tsx:216-296 | A larger ratio never lowers the liquidity or profitability rating and never raises the debt rating. |
| ExecutiveSummaryView.LiquidityProgress | components/financial/executive-summary.tsx:216-220 | At most 100, and exactly 100 iff the ratio is ≥ 1.5; not negative for a non-negative ratio. |
| ExecutiveSummaryView.DebtProgress | components/financial/executive-summary.tsx:246-250 | Within [0, 100]: exactly 100 iff debt to equity is ≤ 1 and exactly 0 iff it is ≥ 3. |
| ExecutiveSummaryView.ProfitabilityProgress | components/financial/executive-summary.tsx:276-280 | At most 100 and exactly 100 iff the margin is ≥ 10; not negative for a non-negative margin. |
| ExecutiveSummaryView.StructureOf | components/financial/executive-summary.tsx:39-43 | The assets percentage is 100 iff assets are positive. Without assets all three are 0; with assets, liabilities and equity are their share of assets × 100. |
| ExecutiveSummaryView.SharesOfBalancedSheet | components/financial/executive-summary.tsx:39-43 | When assets equal liabilities plus equity, the two percentages add up to 100. |
| ExecutiveSummaryView.RenderExecutiveSummary | components/financial/executive-summary.tsx:24-296 | Null data gives the no-data card. Otherwise the net income is shown as a gain iff ≥ 0, as an absolute amount, with the structure percentages and the three indicators with their ratings, captions (Excelente/Buena/Baja, Bajo/Moderado/Alto, Alta/Media/Baja) and progress values. |
| ExecutiveSummaryView.ProgressInRange | components/financial/executive-summary.tsx:216-280 | For the service's metrics with non-negative current balances and revenue ≥ expenses, all three progress values lie in [0, 100]. |
| TAccountViews.Column | components/accounts/t-account-modal.tsx:62-64 | A column holds only movements of the input with a positive amount on its side. |
| TAccountViews.ColumnAppend | components/accounts/t-account-modal.tsx:62-64 | The columns keep the input order: filtering a concatenation concatenates the filtered parts. |
| TAccountViews.ColumnMembers | components/accounts/t-account-modal.tsx:97-99 | A movement is in a column iff it is among the movements and has a positive amount on that side. |
| TAccountViews.ColumnSum | components/accounts/t-account-modal.tsx:29-30 | With no negative amounts, a column adds up to the total printed under it. |
| TAccountViews.LastOr | components/accounts/t-account-modal.tsx:31 | The final balance is the last movement's running balance, and 0 with no movements. |
| TAccountViews.FinalIsNet | components/accounts/t-account-modal.tsx:31 | With consistent running balances the final balance is total debit − total credit. |
| TAccountViews.Cell | components/accounts/t-account-modal.tsx:179-182 | A row is marked (D) iff its running balance is ≥ 0 and shows its absolute value. |
| TAccountViews.RenderModal | components/accounts/t-account-modal.tsx:29-138 | The DEBE and HABER columns are the debit and credit filters, and the totals are the sums of all debits and credits. "Saldo Deudor" shows iff the final balance is ≥ 0, with |final| shown, and there is one cell per movement. |
| TAccountViews.ModalConsistent | components/accounts/t-account-modal.tsx:29-138 | With consistent running balances and no negative amounts, each column adds up to its total. "Saldo Deudor" then shows iff total debit ≥ total credit. |
| TAccountViews.RenderCard | components/financial/t-accounts.tsx:23-91 | The debit and credit columns are the positive-amount filters and the totals are sums over all items. "(Acreedor)" shows iff the final balance is < 0, with |final| shown. |
| TAccountViews.CardWithoutBalance | components/financial/t-accounts.tsx:25-26 | Without a running balance on the last item, or with no items, the card shows 0 "(Deudor)". |
| FormatUtils.FormatAccountCode | lib/utils/format-utils.ts:10-13 | The result grows by exactly 2 characters iff the code is six or more digits, with its hyphens before the last 3 and the last 5 digits. Any other string is returned unchanged. |
| FormatUtils.FormatRoundTrip | lib/utils/format-utils.ts:12 | Removing the hyphens from the formatted all-digit code gives the code back. |
| FormatUtils.FormatGroups | lib/utils/format-utils.ts:12 | The three groups of the output are the first n−5, the next 2 and the last 3 digits of the input. |
| FormatUtils.FormatIdempotent | lib/utils/format-utils.ts:12 | Formatting twice is formatting once. |
| FormatUtils.FormatInjective | lib/utils/format-utils.ts:12 | Two all-digit codes with the same formatting are equal. |
| FormatUtils.FormatExample | lib/utils/format-utils.ts:11-12 | "101001" becomes "1-01-001"; "1101" is left as it is. |
| Common.ContainsFromIff | components/financial/balance-sheet.tsx:36 | The substring test used for `includes` holds iff the key occurs at some position. |

## Left out

- The database, the auth client and the remote procedures (`get_or_create_account`, `calculate_net_income`, `refresh_account_balances`, and the views `balance_sheet_v2`, `income_statement_v2`, `t_accounts`, `account_balances`) are external. Their answers are parameters: row sequences, `Option` for a failing query, booleans for write outcomes.
- `refreshAccountBalances` and the view refreshes are not modelled. The balances and running balances they produce are inputs.
- The filtering, ordering and `limit` the queries do remotely are not modelled: the rows arrive already filtered and ordered.
- Dates and clocks (`new Date()`, `Date.now()`, `toISOString`, `getMonth()` of a transaction date and its time zone) are parameters: `today`, `newId`, `current` and `month`.
- Amounts are integer cents. `parseFloat`, `parseInt` and `Number()` become an `Option<int>` (None for NaN). Fractions of a cent and floating-point rounding are not modelled.
- TransactionForm.TransactionFormState.AddLine: keeps the distinct-ids invariant only when the `Date.now()` id is fresh. Two lines added within the same millisecond would share an id, and the source does not guard against that.
- TransactionForm.TransactionFormState.UpdateLine: the field argument covers the three fields the component edits. `updateLine` with the key `id` is never called and is not modelled.
- DashboardService.SortByCode: sorted and a permutation are proved; stability of `Array.prototype.sort` for equal codes is not.
- The `totalLiabilitiesEquity` accumulator of getBalanceSheet is computed but never returned, so it is not modelled.
- TAccountViews.RenderCard: `TransactionDetail`, the item type of `t-accounts.tsx`, declares no `running_balance`. The item's running balance is therefore an `Option`, and a missing one reads as 0 through `|| 0`.
- TAccountViews.FinalIsNet: assumes the running balances the `t_accounts` view computes are consistent, because that view is not part of this model.
- ReportsService.GetExecutiveSummary: the rows of the first `account_balances` query are unused and its second query's error is not checked. Both appear only as a flag and an `Option`.
- TransactionService.Post: createTransaction's default `transactionType = "DIARIO"` is a required parameter here. All three callers pass the type explicitly (quick-entry.tsx:131, transaction-form.tsx:114, closing-service.ts:100), so no behaviour is lost.
- ReportsService.GetBalanceSheet: rows given as `None` (a failing query) yield the empty statement, and so they do in ReportsService.GetIncomeStatement. A successful query whose `data` is null, which the code would turn into a statement of the period with no sections (`balanceData?.forEach`), is not distinguished: the client returns `[]` rather than null, and `Some([])` gives exactly that statement.
- TransactionService.Post: does not model the failures of getUserProfile without a signed-in user (transaction-service.ts:48) or of a missing current period (getCurrentPeriod returning null, :49 and :67). Both make createTransaction fail before any write. The user and the period are plain inputs of `PostEnv`. closePeriod's getCurrentUser failure (closing-service.ts:23) is left out in the same way.
- ClosingService.CloseInto: the user of `getCurrentUser` in closePeriod and of `getUserProfile` in createTransaction are taken to be the same user, `env.post.userId`.
- The balances `getAccountBalances()` returns to closePeriod, and `calculate_net_income` (0 on its error), are inputs of the close.
- Error messages are error kinds (`Unbalanced` with its totals, `StorageError`, `PeriodNotFound`, ...), not strings.
- `formatCurrency`, `formatDate`, `toFixed`, the rating colours' CSS classes and the rest of the rendering are presentation. Only the figures, labels and D/A sides are modelled.
- React state hooks, `loading`, `alert`, `prompt` and `router` calls are left out. The prompts' answers are parameters of `QuickEntry.HandleQuickEntry`.
- The async sequencing and `Promise.all` fan-out are left out: there is no in-process concurrency.

## Findings

| source | as written | input that shows it | evidently intended | confidence | as-written member | corrected member |
|---|---|---|---|---|---|---|
| lib/services/dashboard-service.ts:340-343 | The bucket of a transaction is `5 - (currentMonth - txMonth)`, without the year wrap-around that the labels use, `(currentMonth - i + 12) % 12`. | currentMonth = 1 (February) and a December transaction (month 11): bucket 3 is labelled "Dic", but the index is 15, so the transaction is never counted. | Every transaction whose month is one of the six labels is counted in the bucket carrying that label. | not executed | DashboardService.ChartIndexAsWritten, DashboardService.ChartIndexAsWrittenDropsDecember, DashboardService.AsWrittenDropsPreviousYear, DashboardService.GetMonthlyChartData | DashboardService.ChartIndex, DashboardService.ChartIndexMatchesLabel, DashboardService.TxLandsInOwnMonth |
| lib/services/closing-service.ts:100-105 | closePeriod(periodId) posts the CIERRE transaction through createTransaction, which files it under getCurrentPeriod() (transaction-service.ts:49, 67). checkPeriodClosed then looks under periodId. | Closing period "ene" while "feb" is current, with one INGRESO balance of 100 and netIncome 100: the result is success, yet "ene" still reads as open and can be closed again. | The closing transaction is recorded under the period being closed, so that period reads as closed afterwards. | not executed | ClosingService.CloseAsWritten, ClosingService.CloseAsWrittenLeavesPastPeriodOpen, ClosingService.ClosePeriod | ClosingService.Close, ClosingService.CloseThenClosed, ClosingService.CloseThenReopen |
