# JagaDoku ledger core in Dafny

JagaDoku is a personal-finance web client. The user records income and
expense transactions and keeps savings goals. A dashboard summarises the
ledger, and an investment simulator projects a compounding balance. The
whole ledger can be copied to a Google Sheet.

This project models the deterministic logic behind those screens and proves
what it promises:

- `Types` holds the transaction and savings-goal records.
- `Seqs` holds the `filter` and summing `reduce` that the components apply
  to lists.
- `Dashboard` covers the three summary cards, the per-category expense
  breakdown behind both charts, and the recent-activity list.
  `CategoryData` is the grouping loop over a key-ordered record.
  `Breakdown` is its specification.
- `App` covers the root component's state as a `Ledger` class. Its methods
  are the updates handed to the child components, the history's date
  filter, and the guard and busy flag of the sync button. It also holds the
  list-level functions and lemmas behind those updates.
- `InvestmentSimulator` covers the year-by-year projection loop and the
  totals derived from it.
- `SavingsManager` covers the new-goal form, the progress percentage, and
  the contribution prompt.
- `TransactionForm` covers the add-transaction form. Its type and category
  select keep the invariant that the category belongs to the type.
- `SheetService` covers the rows written to the two sheets, the sheet
  titles, and a reader that shows the rows lose nothing.

Amounts are `real`. Identifiers, dates and categories are strings. Parsed
numbers, fresh UUIDs, today's date and the outcome of the remote requests
are parameters.

## Model

| member | source | states |
|---|---|---|
| Dashboard.TotalsPartition | components/Dashboard.tsx:24-29 | every transaction is counted exactly once: income total plus expense total is the sum of all amounts, and their difference is the signed sum |
| Dashboard.Total | components/Dashboard.tsx:24-29 | the total of one type is the sum of the amounts of the transactions of that type (a definition; its properties are stated by `TotalsPartition` and `Summarize`) |
| Dashboard.Summarize | components/Dashboard.tsx:23-35 | empty ledger gives 0, 0, 0; income and expenses together account for every amount; balance is income minus expenses and equals the signed sum of the ledger |
| Dashboard.CategoryTotalSnoc | components/Dashboard.tsx:41-43 | one more transaction adds its amount to its own category's total only if it is an expense, and makes that category present |
| Dashboard.CategoriesSpec | components/Dashboard.tsx:38-43 | the record's key order lists every category that has an expense, each once, and no other category |
| Dashboard.Categories | components/Dashboard.tsx:38-43 | the key order of the `categories` record: each expense category at its first occurrence (a definition; its properties are stated by `CategoriesSpec` and `CategoriesFirstEncounter`) |
| Dashboard.CategoriesFirstEncounter | components/Dashboard.tsx:38-43 | keys come in first-encounter order: for keys p < q, every expense in key q is preceded in the ledger by some expense in key p |
| Dashboard.Grouped | components/Dashboard.tsx:44-45 | `Object.entries(...).map(...)`: entry k is key k with its accumulated total (a definition; see `GroupedSum`, `BreakdownEntries`) |
| Dashboard.GroupedSum | components/Dashboard.tsx:38-45 | the grouped entries add up to the total of the expenses |
| Dashboard.SortPermutes | components/Dashboard.tsx:46 | the sort only reorders: same multiset of entries, same value sum |
| Dashboard.SortSorted | components/Dashboard.tsx:46 | the sort result is non-increasing by value |
| Dashboard.SortStable | components/Dashboard.tsx:46 | for every value, the entries with that value keep their relative order |
| Dashboard.SortDistinct | components/Dashboard.tsx:46 | sorting entries with distinct names keeps them distinct |
| Dashboard.SortByValueDesc | components/Dashboard.tsx:46 | the stable descending sort by value (a definition; its properties are stated by `SortPermutes`, `SortSorted`, `SortStable`, `SortDistinct`) |
| Dashboard.Breakdown | components/Dashboard.tsx:37-47 | the `categoryData` value: the grouped entries sorted (a definition; its properties are stated by `BreakdownOrder`, `BreakdownEntries`, `BreakdownTotal`) |
| Dashboard.BreakdownOrder | components/Dashboard.tsx:44-46 | the chart data is sorted descending, a permutation of the grouped entries, and keeps first-encounter order among equal values |
| Dashboard.BreakdownEntries | components/Dashboard.tsx:38-45 | one entry per category with at least one expense (names distinct); an entry is in the result exactly when its category has an expense and its value is that category's expense total; income never contributes |
| Dashboard.BreakdownTotal | components/Dashboard.tsx:27-46 | the slices add up to the expense card |
| Dashboard.CategoryData | components/Dashboard.tsx:37-47 | the accumulate-then-sort computation yields exactly the specified breakdown |
| Dashboard.RecentActivity | components/Dashboard.tsx:185 | at most six transactions (all of them when there are fewer), as a prefix of the ledger in ledger order |
| App.OnDate | App.tsx:35-38 | every shown transaction is from the ledger and, for a non-empty filter, on that date; every ledger transaction on the date (every one, for an empty filter) is shown |
| App.DateFilterIdempotent | App.tsx:35-38 | filtering twice by the same date equals filtering once |
| App.DateFilterKeepsOrder | App.tsx:35-38 | the filter works piecewise over a concatenation, so order is preserved |
| App.WithoutId | App.tsx:189 | the filtered ledger is no longer than before and holds no transaction with the deleted id (the full membership statement is `DeleteMembers`) |
| App.DeleteMembers | App.tsx:189 | after deleting an id, a transaction remains exactly when it was there and has another id |
| App.DeleteKeepsOrder | App.tsx:189 | deleting acts on each part of the ledger separately, so the survivors keep their relative order |
| App.DeleteAbsent | App.tsx:189 | deleting an id no transaction has leaves the ledger unchanged |
| App.DeleteRemovesOne | App.tsx:189 | with unique ids, deleting a present id shortens the ledger by exactly one |
| App.Contribute | App.tsx:225 | same length and order; only `currentAmount` changes, only on goals with that id, by exactly `amount` |
| App.Credit | App.tsx:225 | the map callback: a goal with the id gains exactly `amount` in `currentAmount` and keeps its other fields; any other goal is returned as it is |
| App.ContributeAbsent | App.tsx:225 | a contribution to an id no goal has changes nothing |
| App.ContributeTotal | App.tsx:225 | with unique goal ids and the id present, the total saved rises by exactly `amount` |
| App.AddThenDashboard | App.tsx:143 | a prepended transaction moves only its own summary card, by its amount, and heads the recent-activity list |
| App.DeleteThenDashboard | App.tsx:189 | with unique ids, deleting transaction i takes exactly its amount off its own card and leaves the other card alone |
| App.ContributeThenProgress | App.tsx:225 | a non-negative contribution never lowers that goal's progress |
| App.ContributeReachesTarget | App.tsx:225 | a contribution of any sign makes the goal's progress read 100 exactly when the new total meets the target |
| App.Ledger.constructor | App.tsx:21-32 | the ledger starts from the saved transactions and goals, with no date filter and not syncing |
| App.CanSync | App.tsx:91 | the sync guard: a signed-in user with a non-empty spreadsheet id (an empty id is falsy in the source); used by `HandleSync` |
| App.Ledger.Visible | App.tsx:35-38 | the history shows the whole ledger when no date is chosen, and only ledger transactions otherwise |
| App.Ledger.AddTransaction | App.tsx:143 | the new transaction goes first, then the previous ledger unchanged; nothing else changes |
| App.Ledger.DeleteTransaction | App.tsx:189 | the ledger becomes the id-filtered ledger; nothing else changes |
| App.Ledger.AddGoal | App.tsx:224 | the new goal is appended after the unchanged earlier goals; nothing else changes |
| App.Ledger.UpdateGoal | App.tsx:225 | the goals become the contributed goals; nothing else changes |
| App.Ledger.SetFilterDate | App.tsx:153 | only the filter date changes |
| App.Ledger.PromptContribution | components/SavingsManager.tsx:93-97 | a non-empty prompt reply contributes its parsed amount to the goal; a cancelled or empty reply changes nothing |
| App.Ledger.HandleSync | App.tsx:90-107 | no user, no spreadsheet id or an empty id: refused with nothing sent and the flag unchanged; otherwise the flag is up during the requests and down afterwards on success and failure, the transaction sheet is written first and the goal sheet only after it resolved, and the sync succeeds exactly when both requests resolved; the ledger is untouched |
| InvestmentSimulator.Round | components/InvestmentSimulator.tsx:19 | `Math.round` gives the integer within half of its argument, halves going up |
| InvestmentSimulator.Projection | components/InvestmentSimulator.tsx:11-27 | the nested loops produce years + 1 samples, exactly the specified series |
| InvestmentSimulator.SeriesSteps | components/InvestmentSimulator.tsx:13-24 | sample 0 is the rounded initial amount; sample k + 1 rounds twelve monthly steps applied to the unrounded balance behind sample k |
| InvestmentSimulator.Results | components/InvestmentSimulator.tsx:29-31 | the final balance is the last sample; the amount invested is the initial amount plus twelve contributions per year; the profit is the final balance minus that; the ROI exists exactly when something was invested, and is then profit as a percentage of what was invested |
| InvestmentSimulator.MonthsWithoutGrowth | components/InvestmentSimulator.tsx:22-24 | months without contribution or return leave the balance as it is |
| InvestmentSimulator.YearsWithoutGrowth | components/InvestmentSimulator.tsx:16-24 | years without contribution or return leave the balance as it is |
| InvestmentSimulator.FlatWithoutGrowth | components/InvestmentSimulator.tsx:16-24 | zero return and zero contribution give a constant series equal to the rounded initial amount |
| InvestmentSimulator.MonthsFromZero | components/InvestmentSimulator.tsx:22-24 | months from an empty balance without contribution stay at zero, whatever the rate |
| InvestmentSimulator.YearsFromZero | components/InvestmentSimulator.tsx:16-24 | years from an empty balance without contribution stay at zero, whatever the rate |
| InvestmentSimulator.ZeroStaysZero | components/InvestmentSimulator.tsx:16-24 | nothing invested and nothing contributed gives an all-zero series |
| InvestmentSimulator.GrowNotBelow | components/InvestmentSimulator.tsx:23 | one month with non-negative inputs never lowers the balance |
| InvestmentSimulator.MonthsNotBelow | components/InvestmentSimulator.tsx:22-24 | months with non-negative inputs never lower the balance |
| InvestmentSimulator.BalanceNonDecreasing | components/InvestmentSimulator.tsx:16-24 | with non-negative inputs the unrounded balance never decreases from year to year |
| InvestmentSimulator.SeriesNonDecreasing | components/InvestmentSimulator.tsx:16-24 | with non-negative start, contribution and return, the chart never goes down |
| InvestmentSimulator.MonthsWithoutReturn | components/InvestmentSimulator.tsx:22-24 | at zero return, n months add exactly n contributions |
| InvestmentSimulator.YearsWithoutReturn | components/InvestmentSimulator.tsx:16-24 | at zero return, the balance after k years is the initial amount plus 12k contributions |
| InvestmentSimulator.NoReturnNoProfit | components/InvestmentSimulator.tsx:29-31 | at zero return with whole-rupiah inputs the profit is zero |
| InvestmentSimulator.RoiDefinedUnlessNothingInvested | components/InvestmentSimulator.tsx:100 | with non-negative money inputs the ROI is missing exactly when the initial amount is zero and there is no contribution or no year |
| SavingsManager.NewGoal | components/SavingsManager.tsx:16-26 | no goal when a field is empty; otherwise a goal with the given id, name, deadline and parsed target, and nothing saved yet |
| SavingsManager.GoalForm.constructor | components/SavingsManager.tsx:12-14 | the form starts with three empty fields |
| SavingsManager.GoalForm.EditName | components/SavingsManager.tsx:43 | only the name changes |
| SavingsManager.GoalForm.EditTarget | components/SavingsManager.tsx:50 | only the target changes |
| SavingsManager.GoalForm.EditDeadline | components/SavingsManager.tsx:56 | only the deadline changes |
| SavingsManager.GoalForm.HandleAdd | components/SavingsManager.tsx:16-28 | emits the validated goal and clears all three fields; a rejected add emits nothing and leaves the form as it was |
| SavingsManager.Progress | components/SavingsManager.tsx:67 | never above 100; for a positive target it is 100 exactly when the goal is met, negative when the saved amount is, and otherwise the saved amount as a percentage of the target |
| SavingsManager.ProgressMonotone | components/SavingsManager.tsx:67 | saving more never lowers the progress |
| SavingsManager.ContributionFromPrompt | components/SavingsManager.tsx:95-96 | a contribution is produced exactly for a non-empty reply, with the parsed amount |
| TransactionForm.CategoriesFor | components/TransactionForm.tsx:9-12 | each type's category list is non-empty and offers "Lainnya" |
| TransactionForm.Submission | components/TransactionForm.tsx:21-32 | nothing when amount or description is empty; otherwise a transaction with the form's type, category, description and date, the parsed amount and the fresh id |
| TransactionForm.Form.constructor | components/TransactionForm.tsx:15-19 | a fresh form is an expense in "Makanan" with empty amount and description, dated today, and satisfies the invariant |
| TransactionForm.Form.ChooseExpense | components/TransactionForm.tsx:45 | switching to expense selects the first expense category; the invariant holds; the text fields stay |
| TransactionForm.Form.ChooseIncome | components/TransactionForm.tsx:52 | switching to income selects the first income category; the invariant holds; the text fields stay |
| TransactionForm.Form.ChooseCategory | components/TransactionForm.tsx:73-81 | picking one of the offered options keeps the invariant and changes only the category |
| TransactionForm.Form.EditAmount | components/TransactionForm.tsx:65 | only the amount changes |
| TransactionForm.Form.EditDescription | components/TransactionForm.tsx:88 | only the description changes |
| TransactionForm.Form.EditDate | components/TransactionForm.tsx:99 | only the date changes |
| TransactionForm.Form.Submit | components/TransactionForm.tsx:21-36 | emits the validated transaction, whose category belongs to its type; then clears amount and description and keeps type, category and date; a rejected submit changes nothing |
| SheetService.TransactionRow | services/sheetService.ts:42 | a transaction row is as wide as the header and carries the id, date and amount in the header's columns (the full row is read back by `TransactionBodyRoundTrip`) |
| SheetService.GoalRow | services/sheetService.ts:54 | a goal row is as wide as the header and carries the id, target and saved amount in the header's columns (the full row is read back by `GoalBodyRoundTrip`) |
| SheetService.TransactionBody | services/sheetService.ts:42 | one row per transaction, row i describing transaction i |
| SheetService.GoalBody | services/sheetService.ts:54 | one row per goal, row i describing goal i |
| SheetService.TransactionTable | services/sheetService.ts:40-43 | n + 1 rows: the header first, then transaction i on row i + 1; every row is six cells wide like the header |
| SheetService.GoalTable | services/sheetService.ts:52-55 | m + 1 rows: the header first, then goal i on row i + 1; every row is five cells wide like the header |
| SheetService.SyncWrites | services/sheetService.ts:40-57 | two overwrites, anchored at A1 of the sheets the spreadsheet is created with, in creation order, carrying the two tables |
| SheetService.TransactionBodyRoundTrip | services/sheetService.ts:42 | reading the transaction rows back gives the transactions |
| SheetService.GoalBodyRoundTrip | services/sheetService.ts:54 | reading the goal rows back gives the goals |
| SheetService.TransactionTableRoundTrip | services/sheetService.ts:40-43 | every field of every transaction reaches the sheet: reading the table back gives the ledger, in order |
| SheetService.GoalTableRoundTrip | services/sheetService.ts:52-55 | every field of every goal reaches the sheet: reading the table back gives the goals, in order |

## Left out

- Saving to and loading from `localStorage`, including the JSON encoding (App.tsx:15-32, 41-46): browser storage. The constructor takes the saved lists as parameters.
- The OAuth sign-in, the profile request and the automatic spreadsheet creation (App.tsx:48-88): third-party identity service and asynchronous callbacks. Only the titles the creation request asks for are modelled (`SheetService.CreatedSheets`).
- HTTP transport (services/sheetService.ts:6-27, 45-61): network I/O. The two sync requests (services/sheetService.ts:45-61) never inspect their response statuses, so the model only asks whether each of them resolved. The creation request, which does check its status (services/sheetService.ts:25), is not modelled.
- HandleSync: the alerts and the fresh sign-in after a failure are represented only by the returned `SyncResult`.
- HandleSync: the busy flag during the request is recorded in the ghost field `syncingDuringRequest`, because the asynchronous suspension is not modelled.
- services/geminiService.ts and components/AIAdvisor.tsx: a call into a hosted language model and its user interface.
- components/Layout.tsx and all rendering: navigation, colours, `Intl.NumberFormat`, `toLocaleDateString`, `toFixed` and the pie-label trigonometry.
- The investment simulator is modelled although `renderContent` (App.tsx:135-233) has no case for its tab, so the app never shows it.
- IEEE-754 arithmetic: amounts are exact reals. Rounding error, `NaN` from `parseFloat` on bad input and infinities are not modelled. The parsed number is a parameter.
- `crypto.randomUUID()` and `new Date()`: the fresh id and today's date are parameters.
- CategoryData: follows insertion order for the record's keys. A JavaScript engine would list integer-like keys (such as "2024") first, in numeric order. The fixed category lists contain no such name.
- Progress: requires a non-zero target. The source divides without a guard, and a target of 0 gives infinity or `NaN`.
- Results: returns no ROI when nothing was invested. The source would display a `NaN` or infinite percentage there.
- ContributeTotal: is stated only for goals with unique ids when the id is present (the app's ids are UUIDs). The general form, `amount` times the number of matching goals, is not proved; `Contribute` still states the per-goal effect for any goals.
- React memoisation and re-rendering: they carry no behaviour of their own.
