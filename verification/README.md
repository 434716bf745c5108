# Cash Flow Statement report: a Dafny model

This project models the arithmetic and row-assembly core of the custom Cash
Flow Statement report of the `healthnet_cashflow` app for the ERP host.
The report builds its statement from four sources:

- a trial balance, giving opening and closing debit and credit balances per account;
- a profit-and-loss statement;
- per-account-type ledger sums;
- the host's period list and fiscal-year calendar.

It then adds the aggregate lines:

- section footers;
- the operating-profit line;
- the net increase in cash;
- opening and closing cash;
- a chart payload.

The model treats everything the host supplies as plain input data. That covers trial-balance rows, profit-and-loss rows, the period keys and the fiscal-year lookups. What remains is modelled as pure functions and small loop-carrying methods. Each comes with proved contracts and lemmas.

Modules, in dependency order:

- `Results` (`results.dfy`): `Option` for Python's `None` and `Result` for an operation that raises.
- `Text` (`text.dfy`): substring search, ASCII case mapping and quote stripping, used to recognise accounts and rows by name.
- `Periods` (`periods.dfy`): period keys, the `"total"` key, and per-period amount maps with their sums.
- `ReportRows` (`report_rows.dfy`):
  - the report row, which in the report is one dictionary mixing display fields, per-period amounts and `"total"`;
  - the single-value row builder;
  - sums over the rows a predicate selects.
- `TrialBalance` (`trial_balance.dfy`): first-match movements by case-insensitive label, and the withholding-tax total.
- `TbMovements` (`tb_movements.dfy`): the per-period rows read from the trial balance by exact account name (working capital, PPE, cash and bank), and from the profit-and-loss lines by case-insensitive substring of parent and name (interest expense).
  - working-capital changes;
  - PPE purchase and disposal movements (property, plant and equipment);
  - cash and bank balances;
  - interest expense from the profit-and-loss lines.
- `ReportTotals` (`report_totals.dfy`):
  - section footers (`add_total_row_account`);
  - the operating-profit line and where it is inserted;
  - the net-increase and closing-cash lines of `execute`;
  - the running opening and closing balances (`show_opening_and_closing_balance`).
- `Filters` (`filters.dfy`): filter validation and completion (`validate_and_prepare_filters`), the missing-filters check of `execute`, `get_start_date`, and the per-period ledger sums of an account type (`get_account_type_based_data`).
- `Chart` (`chart.dfy`): the chart's labels and datasets (`get_chart_data`).

Conventions:

- **Amounts** are integers in minor units.
- **Absent values.** An amount that is missing or `None` is absent from a row's `values` map. Reading it with a default of 0 is `Get0`/`Amount`.
- **Repeated period keys.** The model functions follow the dictionary updates for any period list. A repeated key is credited once per listing. A period listed under the key `"total"` shares the row's `"total"` entry, just as it shares the dictionary entry in the report. Properties that need the host's period-list shape are stated under `ValidPeriods` (distinct keys, none equal to `"total"`) or under `TotalKey !in ps`.
- **Errors.** Where the report raises, whether through `frappe.throw`, a `KeyError`/`TypeError`, or an unbound local, the model returns a `Failure`.

## Model

Source paths are relative to the app's repository root.

| member | source | states |
|---|---|---|
| Text.Lower | healthnet_cashflow/healthnet_cashflow/report/custom_cash_flow/custom_cash_flow.py:87 | lower-casing keeps the length and maps every character through the ASCII lower-case mapping |
| Text.Upper | healthnet_cashflow/healthnet_cashflow/report/custom_cash_flow/custom_cash_flow.py:891-892 | upper-casing keeps the length and maps every character through the ASCII upper-case mapping |
| Text.Contains | healthnet_cashflow/healthnet_cashflow/report/custom_cash_flow/custom_cash_flow.py:894 | the search answers true exactly when the needle occurs at some position of the haystack |
| Text.ContainsIgnoringCase | healthnet_cashflow/healthnet_cashflow/report/custom_cash_flow/custom_cash_flow.py:87 | the label matches exactly when its lower-cased form occurs in the lower-cased account name |
| Text.StripQuotes | healthnet_cashflow/healthnet_cashflow/report/custom_cash_flow/custom_cash_flow.py:422 | the result holds no quote, is no longer than the input, and holds every other character of the input as many times as the input does |
| Text.StripQuotesUnquoted | healthnet_cashflow/healthnet_cashflow/report/custom_cash_flow/custom_cash_flow.py:422 | a name without quotes is left as it is |
| Text.StripQuotesAppend | healthnet_cashflow/healthnet_cashflow/report/custom_cash_flow/custom_cash_flow.py:486 | stripping quotes from a concatenation strips each part |
| Text.QuotedName | healthnet_cashflow/healthnet_cashflow/report/custom_cash_flow/custom_cash_flow.py:670-671 | a footer's section written as `'label'` reads back as `label` once quotes are stripped |
| Periods.AddEach | healthnet_cashflow/healthnet_cashflow/report/custom_cash_flow/custom_cash_flow.py:1062-1063 | adding a value to every listed period credits each key once per listing and leaves other keys alone |
| Periods.AddAmounts | healthnet_cashflow/healthnet_cashflow/report/custom_cash_flow/custom_cash_flow.py:895-899 | adding a row's amounts credits each key its amount once per listing and leaves other keys alone |
| Periods.DistinctOnce | healthnet_cashflow/healthnet_cashflow/report/custom_cash_flow/custom_cash_flow.py:1062-1063 | in a period list without repeats every listed key is credited exactly once |
| Periods.SumOverConstant | healthnet_cashflow/healthnet_cashflow/report/custom_cash_flow/custom_cash_flow.py:1062-1066 | a row holding one value in every period sums to that value times the number of periods |
| Periods.SumOverAgree | healthnet_cashflow/healthnet_cashflow/report/custom_cash_flow/custom_cash_flow.py:523-535 | two rows agreeing on every period sum to the same total over the periods |
| Periods.KeepFirst | healthnet_cashflow/healthnet_cashflow/report/custom_cash_flow/custom_cash_flow.py:617 | repeated `setdefault` leaves exactly the listed keys, each holding the value of its first listing |
| Periods.KeepFirstExtends | healthnet_cashflow/healthnet_cashflow/report/custom_cash_flow/custom_cash_flow.py:617 | if a map holds exactly the first listings of all but the last key, then `setdefault` of the last listing gives a map holding exactly the first listings of all the keys |
| Periods.KeepFirstStep | healthnet_cashflow/healthnet_cashflow/report/custom_cash_flow/custom_cash_flow.py:617 | one more listing leaves the kept entries alone and adds its key, with its value, only when the key is new |
| Periods.SetAndTally | healthnet_cashflow/healthnet_cashflow/report/custom_cash_flow/custom_cash_flow.py:413-432 | writing each period's amount and adding it into the row's own `"total"` leaves every period (other than `"total"`) at its amount, other entries untouched, and, when no period is called `"total"`, the entry at its start plus the sum over the periods |
| ReportRows.SingleValueRow | healthnet_cashflow/healthnet_cashflow/report/custom_cash_flow/custom_cash_flow.py:29-53 | the row has exactly the period keys and `"total"`, every one of them holding the given value, and keeps the given section, parent, currency and flags |
| ReportRows.SingleValueRowTotal | healthnet_cashflow/healthnet_cashflow/report/custom_cash_flow/custom_cash_flow.py:47-53 | for any period list, the row's `"total"` is the value itself, while its period amounts add up to the value times the number of periods |
| ReportRows.Filter | healthnet_cashflow/healthnet_cashflow/report/custom_cash_flow/custom_cash_flow.py:851-852 | the rows kept are exactly the listed rows the predicate accepts, and never more rows than were listed |
| ReportRows.FilterAppend | healthnet_cashflow/healthnet_cashflow/report/custom_cash_flow/custom_cash_flow.py:845-852 | selecting rows from two lists joined is selecting from each and joining |
| ReportRows.ColumnAppend | healthnet_cashflow/healthnet_cashflow/report/custom_cash_flow/custom_cash_flow.py:484-493 | a column sum over two lists joined is the sum of the two column sums |
| ReportRows.ColumnSums | healthnet_cashflow/healthnet_cashflow/report/custom_cash_flow/custom_cash_flow.py:417-431 | the per-period row has exactly the period keys, each holding the selected rows' sum for that key |
| ReportRows.SumOverColumnSums | healthnet_cashflow/healthnet_cashflow/report/custom_cash_flow/custom_cash_flow.py:431-432 | summing a per-period row over the periods gives the selected rows' amounts summed over all periods |
| TrialBalance.FirstMatchIndex | healthnet_cashflow/healthnet_cashflow/report/custom_cash_flow/custom_cash_flow.py:80-87 | the position found is -1 exactly when no record matches, and otherwise a matching record with no matching record before it |
| TrialBalance.FirstMatchMovement | healthnet_cashflow/healthnet_cashflow/report/custom_cash_flow/custom_cash_flow.py:80-107 | no match gives 0; otherwise the movement is that of the first matching record |
| TrialBalance.TbDiffByLabel | healthnet_cashflow/healthnet_cashflow/report/custom_cash_flow/custom_cash_flow.py:80-107 | the scan that skips non-records and returns at the first record whose name contains the label equals the first-match movement |
| TrialBalance.LaterRowsIgnored | healthnet_cashflow/healthnet_cashflow/report/custom_cash_flow/custom_cash_flow.py:87-98 | once some record matches, appending more rows does not change the result |
| TrialBalance.FirstIndexExists | healthnet_cashflow/healthnet_cashflow/report/custom_cash_flow/custom_cash_flow.py:80-87 | any matching position has a first matching position |
| TrialBalance.NonRecordsSkipped | healthnet_cashflow/healthnet_cashflow/report/custom_cash_flow/custom_cash_flow.py:81-82 | inserting a non-record anywhere in the rows does not change the result |
| TrialBalance.SumFirstMatches | healthnet_cashflow/healthnet_cashflow/report/custom_cash_flow/custom_cash_flow.py:134-159 | the label loop with its early break adds, for each label, the first-match movement, so a label nobody matches adds 0 |
| TrialBalance.WithholdingIsTwoLookups | healthnet_cashflow/healthnet_cashflow/report/custom_cash_flow/custom_cash_flow.py:116-159 | the withholding total is the 7.5% account's first-match movement plus the 3% account's |
| TbMovements.LastNamedIndex | healthnet_cashflow/healthnet_cashflow/report/custom_cash_flow/custom_cash_flow.py:1107-1111 | the position found is -1 when no row carries the name, and otherwise a row carrying it with none after it |
| TbMovements.LastNamed | healthnet_cashflow/healthnet_cashflow/report/custom_cash_flow/custom_cash_flow.py:1104-1111 | the scan that keeps overwriting its candidate finds nothing exactly when no row carries the name, and otherwise the last such row |
| TbMovements.LastNamedValueOfLast | healthnet_cashflow/healthnet_cashflow/report/custom_cash_flow/custom_cash_flow.py:936-956 | the value each period is left with is that of the last row named after the account, or 0 when there is none |
| TbMovements.NamedStep | healthnet_cashflow/healthnet_cashflow/report/custom_cash_flow/custom_cash_flow.py:936-958 | a row changes the period value and the running total only when it carries the account's name |
| TbMovements.WorkingCapitalChange | healthnet_cashflow/healthnet_cashflow/report/custom_cash_flow/custom_cash_flow.py:904-961 | fails exactly when a row matches an account name with no debit/credit rule and there is at least one period to show its value; otherwise every period holds the last matching row's value, `"total"` is each matching row's value once per period, and with a single matching row `"total"` is the sum of the periods |
| TbMovements.ScanNamed | healthnet_cashflow/healthnet_cashflow/report/custom_cash_flow/custom_cash_flow.py:936-958 | the row loop leaves the last matching row's value and the period count times the sum of all matching values, failing on a match without a rule only when some period reads the unassigned value |
| TbMovements.SingleLastNamed | healthnet_cashflow/healthnet_cashflow/report/custom_cash_flow/custom_cash_flow.py:936-937 | when only one row carries the name, it is the row the scan ends with |
| TbMovements.SingleRowTotal | healthnet_cashflow/healthnet_cashflow/report/custom_cash_flow/custom_cash_flow.py:954-960 | with a single matching row and distinct periods, `"total"` equals the sum of the period amounts |
| TbMovements.SingleNamedTotal | healthnet_cashflow/healthnet_cashflow/report/custom_cash_flow/custom_cash_flow.py:936-958 | with a single matching row the sum of matching values is that row's value |
| TbMovements.NoneNamedTotal | healthnet_cashflow/healthnet_cashflow/report/custom_cash_flow/custom_cash_flow.py:936-938 | rows none of which carries the name add nothing |
| TbMovements.PpeMovement | healthnet_cashflow/healthnet_cashflow/report/custom_cash_flow/custom_cash_flow.py:1101-1133 | without the asset row every period and the total are 0; otherwise every period holds the movement read from the last asset and depreciation rows, and the total is that value times the number of periods; a purchase is never positive |
| TbMovements.RepeatValue | healthnet_cashflow/healthnet_cashflow/report/custom_cash_flow/custom_cash_flow.py:1116-1132 | the period loop puts the value under every period key and makes the total the value once per listed period, so a value that is never positive gives no positive entry |
| TbMovements.CashAndBankBalance | healthnet_cashflow/healthnet_cashflow/report/custom_cash_flow/custom_cash_flow.py:1019-1067 | each period holds the summed opening-debit or closing-credit balance of the bank and cash-in-hand rows (once per listing), `"total"` is that balance times the number of periods, and with distinct periods `"total"` is the sum of the periods |
| TbMovements.SumBalances | healthnet_cashflow/healthnet_cashflow/report/custom_cash_flow/custom_cash_flow.py:1049-1066 | the row loop credits each selected row's balance to every period once per listing and to the total once per period |
| TbMovements.CashFoldStep | healthnet_cashflow/healthnet_cashflow/report/custom_cash_flow/custom_cash_flow.py:1052-1063 | one more row extends the loop's state by exactly that row |
| TbMovements.CashFoldResult | healthnet_cashflow/healthnet_cashflow/report/custom_cash_flow/custom_cash_flow.py:1049-1066 | after all rows each period holds its listing count times the balance sum, once with distinct periods, and the total the sum times the period count |
| TbMovements.CashFoldMeaning | healthnet_cashflow/healthnet_cashflow/report/custom_cash_flow/custom_cash_flow.py:1049-1066 | the loop state after any prefix of rows is the balance sum of that prefix, per period and in total |
| TbMovements.InterestExpenseFromPl | healthnet_cashflow/healthnet_cashflow/report/custom_cash_flow/custom_cash_flow.py:865-902 | each period holds the sum of that period's amounts over lines whose parent mentions finance cost and whose name mentions interest, `"total"` sums those lines over all periods, and with distinct periods `"total"` is the sum of the periods |
| TbMovements.SumSelectedLines | healthnet_cashflow/healthnet_cashflow/report/custom_cash_flow/custom_cash_flow.py:884-901 | the line loop credits each selected line's amounts to its periods once per listing and to the total |
| TbMovements.SelectedFoldStep | healthnet_cashflow/healthnet_cashflow/report/custom_cash_flow/custom_cash_flow.py:890-899 | one more line extends the loop's state by exactly that line |
| TbMovements.SelectedFoldResult | healthnet_cashflow/healthnet_cashflow/report/custom_cash_flow/custom_cash_flow.py:884-901 | after all lines each period holds its listing count times the selected sum, once with distinct periods, and the total the sum over all periods |
| TbMovements.SelectedFoldMeaning | healthnet_cashflow/healthnet_cashflow/report/custom_cash_flow/custom_cash_flow.py:884-901 | the loop state after any prefix of lines is that prefix's selected sums, per period and in total |
| TbMovements.SumOverSelected | healthnet_cashflow/healthnet_cashflow/report/custom_cash_flow/custom_cash_flow.py:895-901 | summing the per-period interest over the periods equals summing each line's amounts over the periods, the order of the two sums does not matter |
| TbMovements.NoPeriodsSelected | healthnet_cashflow/healthnet_cashflow/report/custom_cash_flow/custom_cash_flow.py:895-899 | over no periods the lines add nothing to the total |
| TbMovements.SelectedOverLastPeriod | healthnet_cashflow/healthnet_cashflow/report/custom_cash_flow/custom_cash_flow.py:895-899 | one more period adds that period's sum over the selected lines to the total |
| ReportTotals.AddTotalRowAccount | healthnet_cashflow/healthnet_cashflow/report/custom_cash_flow/custom_cash_flow.py:668-702 | fails exactly when a counted row lacks a period amount or its `"total"`; otherwise appends the footer row and a blank line, the footer holds per period and for `"total"` the counted rows' sums, and the summary entry becomes the sum of every counted period amount |
| ReportTotals.SumCountedRows | healthnet_cashflow/healthnet_cashflow/report/custom_cash_flow/custom_cash_flow.py:681-697 | the row loop fails exactly on a counted row with a missing amount and otherwise accumulates the counted rows' sums per key and in total |
| ReportTotals.FooterFoldStep | healthnet_cashflow/healthnet_cashflow/report/custom_cash_flow/custom_cash_flow.py:681-697 | one more row extends the loop's state by exactly that row |
| ReportTotals.FooterFoldMeaning | healthnet_cashflow/healthnet_cashflow/report/custom_cash_flow/custom_cash_flow.py:681-697 | the loop's state fails exactly when some counted row lacks an amount and otherwise holds the counted rows' sums |
| ReportTotals.FooterFoldFails | healthnet_cashflow/healthnet_cashflow/report/custom_cash_flow/custom_cash_flow.py:689-694 | the loop fails exactly when some counted row lacks an amount |
| ReportTotals.FooterFoldSums | healthnet_cashflow/healthnet_cashflow/report/custom_cash_flow/custom_cash_flow.py:681-697 | a loop that succeeds holds the counted rows' per-key sums and grand sum |
| ReportTotals.AccumulateStep | healthnet_cashflow/healthnet_cashflow/report/custom_cash_flow/custom_cash_flow.py:689-697 | adding one counted row keeps the footer's keys, per-key sums and grand sum in step with the counted rows |
| ReportTotals.FooterStep | healthnet_cashflow/healthnet_cashflow/report/custom_cash_flow/custom_cash_flow.py:691-697 | adding one counted row adds its amount to every key once per listing and its own total under `"total"` |
| ReportTotals.OperatingProfitRow | healthnet_cashflow/healthnet_cashflow/report/custom_cash_flow/custom_cash_flow.py:406-432 | the line holds per period the sum of net profit, depreciation and interest expense and counts towards the operating footer; when no period is called `"total"`, its `"total"` is the sum over the periods |
| ReportTotals.OperatingProfitTotalPeriod | healthnet_cashflow/healthnet_cashflow/report/custom_cash_flow/custom_cash_flow.py:413-432 | a single period called `"total"` is written over the line's `"total"` and then added to it again, so the line shows twice that period's amount |
| ReportTotals.FirstSectionIndex | healthnet_cashflow/healthnet_cashflow/report/custom_cash_flow/custom_cash_flow.py:438-446 | the search finds nothing exactly when no row is in the section, and otherwise the first row that is |
| ReportTotals.InsertAfterSection | healthnet_cashflow/healthnet_cashflow/report/custom_cash_flow/custom_cash_flow.py:434-461 | the operating-profit line goes right after the first "Interest Expense" row, or at the end when there is none, and nothing else moves |
| ReportTotals.NetCashRow | healthnet_cashflow/healthnet_cashflow/report/custom_cash_flow/custom_cash_flow.py:475-500 | each period holds the sum of that period's amounts over the three section footers, and `"total"` sums those over the periods |
| ReportTotals.NetCashSummary | healthnet_cashflow/healthnet_cashflow/report/custom_cash_flow/custom_cash_flow.py:481-498 | with at least one period the summary's net-increase entry grows by the sum over the periods of each period's section-footer total; with none the summary is returned unchanged, as the entry is written only inside the period loop; every other summary entry is left alone |
| ReportTotals.NetCashSummaryMatchesRow | healthnet_cashflow/healthnet_cashflow/report/custom_cash_flow/custom_cash_flow.py:481-500 | the net-increase entry, read with a default of 0, grows by exactly the net-increase line's `"total"`, with or without periods |
| ReportTotals.NetCashSummaryNoPeriods | healthnet_cashflow/healthnet_cashflow/report/custom_cash_flow/custom_cash_flow.py:481-498 | with no periods the summary gains no net-increase entry, so an empty summary stays empty |
| ReportTotals.NetCashOfThreeFooters | healthnet_cashflow/healthnet_cashflow/report/custom_cash_flow/custom_cash_flow.py:484-493 | with exactly the three footer rows present, each period's net change is their sum |
| ReportTotals.FooterRowIsSectionFooter | healthnet_cashflow/healthnet_cashflow/report/custom_cash_flow/custom_cash_flow.py:670-671 | the row `add_total_row_account` writes for a section footer is picked up by the net-increase line |
| ReportTotals.ClosingCashRow | healthnet_cashflow/healthnet_cashflow/report/custom_cash_flow/custom_cash_flow.py:517-535 | each period closes at its opening plus its net change, and when no period is called `"total"` the `"total"` is the sum of the closing values |
| ReportTotals.ClosingIsOpeningPlusFooters | healthnet_cashflow/healthnet_cashflow/report/custom_cash_flow/custom_cash_flow.py:481-535 | the report's closing cash for a period is its opening cash plus the section footers' amounts for that period |
| ReportTotals.BalanceStep | healthnet_cashflow/healthnet_cashflow/report/custom_cash_flow/custom_cash_flow.py:719-726 | recording one more period keeps every earlier period's opening and closing balance |
| ReportTotals.BalanceLines | healthnet_cashflow/healthnet_cashflow/report/custom_cash_flow/custom_cash_flow.py:719-729 | the first period opens at the opening amount, each later period opens where the previous one closed, period i closes at the opening amount plus the changes up to i, and the totals are the first opening and the last closing |
| ReportTotals.OpeningAndClosingBalance | healthnet_cashflow/healthnet_cashflow/report/custom_cash_flow/custom_cash_flow.py:705-731 | fails exactly on an empty period list; otherwise appends opening, net change, closing and a blank line, with the running-balance properties above |
| ReportTotals.RunningBalance | healthnet_cashflow/healthnet_cashflow/report/custom_cash_flow/custom_cash_flow.py:719-726 | every period gets an opening and a closing, and with distinct periods they are the running balances |
| ReportTotals.BalanceFoldMeaning | healthnet_cashflow/healthnet_cashflow/report/custom_cash_flow/custom_cash_flow.py:719-726 | after i periods the running balance is the opening amount plus their changes, and the recorded balances are the running balances |
| Filters.ValidateAndPrepare | healthnet_cashflow/healthnet_cashflow/report/custom_cash_flow/custom_cash_flow.py:964-1016 | succeeds exactly on acceptable filters (one named fiscal year known to the calendar, or ordered dates in one fiscal year); each user error is raised exactly in its own case; fiscal-year mode fills the dates from the year, date-range mode fills both year names from the dates |
| Filters.PrepareReportFilters | healthnet_cashflow/healthnet_cashflow/report/custom_cash_flow/custom_cash_flow.py:176-182 | no filters is its own error; otherwise the report proceeds exactly on acceptable filters |
| Filters.PrepareIdempotent | healthnet_cashflow/healthnet_cashflow/report/custom_cash_flow/custom_cash_flow.py:964-1016 | completed filters pass validation again unchanged |
| Filters.ModesAgree | healthnet_cashflow/healthnet_cashflow/report/custom_cash_flow/custom_cash_flow.py:970-1012 | on a coherent calendar the dates a fiscal year fills in form an acceptable date range naming the same year |
| Filters.StartDate | healthnet_cashflow/healthnet_cashflow/report/custom_cash_flow/custom_cash_flow.py:657-665 | without accumulation the period's own first day, or its year's first day when it has none; with accumulation the first day of the fiscal year holding the period's last day, failing when the calendar has none |
| Filters.StartNotAfterEnd | healthnet_cashflow/healthnet_cashflow/report/custom_cash_flow/custom_cash_flow.py:657-665 | with ordered period dates and a calendar that places days inside their years, sums never start after the period ends |
| Filters.AccumulatedStartIgnoresPeriodStart | healthnet_cashflow/healthnet_cashflow/report/custom_cash_flow/custom_cash_flow.py:661-663 | with accumulation the start depends only on the period's last day |
| Filters.PeriodAmount | healthnet_cashflow/healthnet_cashflow/report/custom_cash_flow/custom_cash_flow.py:606-614 | a period's amount is the ledger sum from its start date to its last day, negated for depreciation; it exists exactly when the start date does |
| Filters.AccountTypeBasedData | healthnet_cashflow/healthnet_cashflow/report/custom_cash_flow/custom_cash_flow.py:602-620 | fails exactly when some period has no start date, never without accumulation; otherwise holds every period key plus `"total"`, each key the amount of its first listing, `"total"` the amounts of all listed periods added up, and on distinct keys none called `"total"` the sum of the period entries |
| Filters.CollectAmounts | healthnet_cashflow/healthnet_cashflow/report/custom_cash_flow/custom_cash_flow.py:605-617 | the period loop fails exactly when some period has no amount, and otherwise leaves the first-listing entries and the sum of all amounts read |
| Filters.CollectStep | healthnet_cashflow/healthnet_cashflow/report/custom_cash_flow/custom_cash_flow.py:605-617 | one more period with an amount keeps the earlier entries, adds its key with its amount only when the key is new, and adds its amount to the running total |
| Filters.DistinctFirstListings | healthnet_cashflow/healthnet_cashflow/report/custom_cash_flow/custom_cash_flow.py:617 | with distinct period keys every period is the first listing of its key, so `setdefault` keeps every amount |
| Filters.AmountSumOverKeys | healthnet_cashflow/healthnet_cashflow/report/custom_cash_flow/custom_cash_flow.py:616-619 | on distinct period keys the `"total"` equals the sum over the periods of the per-period entries |
| Chart.PeriodColumns | healthnet_cashflow/healthnet_cashflow/report/custom_cash_flow/custom_cash_flow.py:844 | the columns after the first two, none when there are fewer than two |
| Chart.DatasetOf | healthnet_cashflow/healthnet_cashflow/report/custom_cash_flow/custom_cash_flow.py:847-850 | a series is named by the line's unquoted section and holds, per period column, the line's amount under that column's field or nothing |
| Chart.AllDatasets | healthnet_cashflow/healthnet_cashflow/report/custom_cash_flow/custom_cash_flow.py:845-853 | one series per top-level line with a currency, in report order; fails exactly when such a line has no section |
| Chart.DropLastTwo | healthnet_cashflow/healthnet_cashflow/report/custom_cash_flow/custom_cash_flow.py:854 | keeps all series but the last two, in order |
| Chart.ChartOf | healthnet_cashflow/healthnet_cashflow/report/custom_cash_flow/custom_cash_flow.py:843-862 | labels are the period columns' headings; series are those of all top-level lines with a currency except the last two; the currency is passed through; fails exactly when such a line has no section |
| Chart.BalanceLinesNotCharted | healthnet_cashflow/healthnet_cashflow/report/custom_cash_flow/custom_cash_flow.py:505-538 | the series dropped are exactly the opening and closing cash lines the report appends last, so every earlier top-level line keeps its series |

## Left out

- Ledger and database reads are inputs, not models. This covers the GL sum query (`get_account_type_based_gl_data`, a parameter of `Filters.AccountTypeBasedData`), `get_opening_balance`, `get_net_income`, `get_opening_range_using_fiscal_year`, the account lists from `frappe.get_all` and the company currency.
- Host report code is not modelled. This covers `get_period_list`, `get_data`, `get_net_profit_loss`, `get_columns`, the trial-balance and profit-and-loss reports and `get_fiscal_year`. Their results are parameters: rows, period keys, and the calendar's two lookups (`Filters.Calendar`).
- The fiscal-year lookups are abstract. Fiscal-year mode passes a fiscal-year name where `get_fiscal_year` expects a date, and that function's handling of it is not visible here. The model takes "the fiscal year with this name" as its own lookup.
- `execute` is not modelled as one function. Its per-label dispatch and the order of appends are not composed end to end. The pieces it combines are modelled separately: footers, operating profit and its placement, net increase, closing cash, and the chart. The include flags set from label lists (lines 386-399) are inputs of the rows.
- `get_report_summary` and `get_cash_flow_accounts` are not modelled. The first is a formatting list and the second a fixed configuration table.
- The consolidated-report period list (`get_filtered_list_for_consolidated_report`) is not modelled; the model uses the plain period keys.
- `show_opening_and_closing_balance` is modelled on its own. `execute` never calls it. Its opening amount comes from a ledger read, so it is a parameter.
- Logging (`frappe.log_error`, `print`) is dropped, and translation `_()` is the identity.
- Floating point is not modelled. `flt` and float arithmetic become integers in minor units, with no rounding.
- Case mapping covers ASCII only. Python's Unicode `lower`/`upper` are not modelled.
- Display-only fields are not modelled: `section_name`, `indent`, `accounts`, `is_section_total` and the chart's `type`/`fieldtype`/`options`.
- An amount that is present but `None` is modelled as absent, so it reads as 0. In the report, `row.get(key, 0)` then returns `None` and the next `+` or `-` raises `TypeError`. This applies to row amounts (lines 429, 493, 528-529, 722) and to trial-balance columns read without `flt` (lines 945-953, 1057-1063, 1120-1126). The model takes the trial balance to carry numbers in those columns. Among the report's own rows only the section header rows store `None` amounts, and none of the sums modelled here selects a header row.
- A row whose `account_name` or `section` is present but `None` is modelled as if the field read `""`. The report would raise on `.lower()` or `.replace()` there. The trial balance and the report's own rows never carry such a value.
- The filters object is not modelled as mutable. `validate_and_prepare_filters` mutates it; here it returns the completed filters instead.
- TbMovements.WorkingCapitalChange: the sum of the periods equals `"total"` only when one row matches. With several matches the report keeps the last value per period but adds every match into `"total"`, and the contract states exactly that.
- ReportTotals.AddTotalRowAccount: the footer's per-period values are stated only for distinct period keys. With repeated keys the contract states the accumulator's general form through `SumCountedRows`.
- ReportTotals.OpeningAndClosingBalance: the running-balance equalities are stated only for distinct period keys. With a repeated key a later period overwrites an earlier one's entry.
