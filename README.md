# Finance tracker engine, modelled in Dafny

This project models the logic of a browser finance tracker. The tracker records
income and expense transactions under named categories. It derives figures from
them: all-time and current-month totals, a per-category expense breakdown, a
six-month trend and budget consumption. It keeps three collections
(transactions, categories, budgets) in memory and writes every change through
to a key-value store.

Modules, one per source file of the core, plus two shared ones:

- `Calendar`: civil dates `(year, month, day)` and the normalising date
  constructor `FromParts`. JavaScript's `new Date(y, m, d)` carries an
  out-of-range month into the year and an out-of-range day into the
  neighbouring months; `FromParts` does the same. The "month − i" step of the
  trend and the "day − 7" step of the weekly budget both go through it.
- `SeqOps`: `filter`, `map` and `findIndex` as functions on sequences, with
  their algebra (append, composition, filter after map).
- `FinanceTypes`: the records of `src/types/finance.ts` and the amount sum that
  every aggregation ends in.
- `ListOps`: remove by id, patch in place and the budget upsert keyed by
  category name. The store and the coordinator both use these.
- `FinanceStorage`: `financeStorage` as a class `Storage`. Its field `local`
  maps each key to the records stored under it. Each write method reads
  its collection, changes it and writes the whole collection back under its
  own key. `UpdateTransaction` writes nothing for an unknown id,
  `InitializeData` writes the default categories only when no categories key
  exists, and the three getters write nothing.
- `UseFinance`: the hook. It has the aggregations `GetStats`,
  `ExpensesByCategory` and `GetMonthlyTrend`, the last a loop as in the
  source. It also has the class `FinanceState`, which writes to storage first
  and then updates its in-memory list. Its invariant is that each in-memory
  list equals what the store would read back.
- `BudgetTracker`: the budget screen's figures (period start, spent,
  percentage, remaining), the status thresholds, the add-budget guard and the
  category choices.
- `TransactionList`: the list view's filter, a stable newest-first sort, the
  cut to eight rows and the "Showing N of M" footer.

Amounts are integers (whole cents). The budget percentage is a `real`. The
clock (`new Date()`), fresh ids (`crypto.randomUUID()`), creation timestamps
and the parsed limit (`parseFloat`) are parameters.

Three facts about the code that the model keeps as they are:

- A save replaces only the first budget for the category, or appends; budgets
  are never trimmed to one per category. "One budget per category" is proved
  to be preserved (`ListOps.UpsertKeepsOnePerCategory`), not to be restored.
- A budget's limit may be zero or negative. The percentage is then 0, as the
  code's guard says.
- An expense whose category string names no expense category is in no
  breakdown entry, and a name shared by two expense categories is counted in
  both.

## Model

| member | source | states |
|---|---|---|
| Calendar.NormalizeDay | src/components/budget-tracker.tsx:56 | carrying an out-of-range day across months yields a valid date; an in-range day is kept; a day below 1 lands before the month, any other day on or after its first |
| Calendar.FromParts | src/hooks/use-finance.ts:122 | `new Date(y, m - 1, d)` always yields a valid date, and a valid triple is returned unchanged |
| Calendar.MonthsBack | src/hooks/use-finance.ts:122 | the first of a month, exactly `i` months before `now`'s month on the absolute month count `year * 12 + month` |
| Calendar.MonthsBackIsFromParts | src/hooks/use-finance.ts:122 | that month is what the normalising constructor builds from `(year, month - i, 1)` |
| Calendar.MonthsBackStep | src/hooks/use-finance.ts:121-122 | successive loop indices give successive calendar months |
| Calendar.MonthsBackZero | src/hooks/use-finance.ts:121-122 | the last trend month is `now`'s own month |
| Calendar.SevenDaysBack | src/components/budget-tracker.tsx:56 | day − 7 stays in the month after the 7th, otherwise lands on the matching day near the end of the previous month (across a year end too), and is always strictly earlier than `now` |
| SeqOps.Filter | src/hooks/use-finance.ts:34 | `Array.prototype.filter` never yields more elements than it is given; its contents are stated by `SeqOps.FilterMembers` and its order by `SeqOps.FilterAppend` |
| SeqOps.Map | src/hooks/use-finance.ts:102-112 | `Array.prototype.map` keeps the length and puts `f` of the i-th element at index i |
| SeqOps.FilterMembers | src/hooks/use-finance.ts:34 | `filter` keeps exactly the elements that satisfy the predicate, all taken from the input |
| SeqOps.FilterSubMultiset | src/lib/finance-storage.ts:46 | `filter` never duplicates an element: the result is a sub-multiset of the input |
| SeqOps.FilterAppend | src/lib/finance-storage.ts:46 | filtering distributes over concatenation, so kept elements keep their relative order |
| SeqOps.FilterFilter | src/components/transaction-list.tsx:43-44 | two filters in a row are one filter by the conjunction |
| SeqOps.FilterMap | src/hooks/use-finance.ts:101-113 | filtering after a map is mapping after a filter through the map |
| SeqOps.FirstIndex | src/lib/finance-storage.ts:38 | `findIndex`: −1 exactly when nothing matches, otherwise the first matching index |
| FinanceTypes.Stamp | src/hooks/use-finance.ts:22-26 | the new transaction is the draft with the fresh id and creation time |
| FinanceTypes.StampCategory | src/hooks/use-finance.ts:39-42 | the new category is the draft with the fresh id |
| FinanceTypes.TotalAppend | src/hooks/use-finance.ts:75 | the `reduce` sum of two lists back to back is the sum of their sums |
| FinanceTypes.Total | src/hooks/use-finance.ts:75 | the `reduce` sum of the amounts; non-negative amounts sum to a non-negative total |
| FinanceTypes.TotalFilterAtMost | src/hooks/use-finance.ts:81-87 | with non-negative amounts, summing a filtered list never exceeds the whole sum |
| ListOps.RemoveTransaction | src/lib/finance-storage.ts:46 | no transaction with the id is left; every other transaction of the input is kept |
| ListOps.RemoveTransactionAbsent | src/lib/finance-storage.ts:45-48 | deleting an unknown id changes nothing |
| ListOps.RemoveTransactionIdempotent | src/hooks/use-finance.ts:32-35 | deleting twice is deleting once |
| ListOps.RemoveTransactionSplits | src/hooks/use-finance.ts:34 | the survivors keep their order |
| ListOps.RemoveBudget | src/lib/finance-storage.ts:80 | no budget with the id is left; every other budget is kept |
| ListOps.RemoveBudgetAbsent | src/lib/finance-storage.ts:79-82 | deleting an unknown budget id changes nothing |
| ListOps.RemoveBudgetIdempotent | src/lib/finance-storage.ts:79-82 | deleting a budget twice is deleting it once |
| ListOps.RemoveBudgetSplits | src/lib/finance-storage.ts:80 | the surviving budgets keep their order |
| ListOps.ApplyPatch | src/lib/finance-storage.ts:40 | `{ ...t, ...updates }`: each supplied field overrides, each missing field is kept |
| ListOps.UpdateTransaction | src/lib/finance-storage.ts:36-43 | the list keeps its length; with no match it is unchanged; otherwise only the first match changes, to the patched record |
| ListOps.UpsertBudget | src/lib/finance-storage.ts:68-77 | same length when the category has a budget, `bs + [b]` when not; `b` is present; nothing else is added; other categories' budgets stay in place |
| ListOps.UpsertReplacesFirst | src/hooks/use-finance.ts:50-55 | with a budget for the category, the upsert overwrites the first one at its own index |
| ListOps.UpsertHasBudgetFor | src/lib/finance-storage.ts:68-77 | after an upsert a category has a budget iff it had one before or is the upserted category |
| ListOps.UpsertKeepsOnePerCategory | src/lib/finance-storage.ts:68-77 | at most one budget per category name is preserved |
| ListOps.UpsertLeavesOnlyB | src/hooks/use-finance.ts:48-59 | with one budget per category, the only budget left for the category is the new one |
| ListOps.UpsertTwice | src/hooks/use-finance.ts:48-59 | two upserts for one category equal the second alone |
| FinanceStorage.DefaultCategories | src/lib/finance-storage.ts:10-21 | ten categories with ids "1" to "10": three income, then seven expense |
| FinanceStorage.TransactionsIn | src/lib/finance-storage.ts:25-28 | an absent key reads as no transactions |
| FinanceStorage.CategoriesIn | src/lib/finance-storage.ts:51-54 | an absent key reads as the default categories |
| FinanceStorage.BudgetsIn | src/lib/finance-storage.ts:63-66 | an absent key reads as no budgets |
| FinanceStorage.Seeded | src/lib/finance-storage.ts:85-89 | seeding leaves a categories key; it writes only when that key is absent |
| FinanceStorage.SeededIdempotent | src/lib/finance-storage.ts:85-89 | seeding twice is seeding once |
| FinanceStorage.SeededReadsAlike | src/lib/finance-storage.ts:85-89 | seeding changes no read, and every other key keeps both its presence and its value, so stored categories are never overwritten |
| FinanceStorage.DeleteTransactionTwice | src/lib/finance-storage.ts:45-48 | deleting a transaction twice leaves the store as deleting once |
| FinanceStorage.DeleteBudgetTwice | src/lib/finance-storage.ts:79-82 | deleting a budget twice leaves the store as deleting once |
| FinanceStorage.Storage.constructor | src/lib/finance-storage.ts:23 | the store starts from what an earlier session left |
| FinanceStorage.Storage.GetTransactions | src/lib/finance-storage.ts:25-28 | reads the transactions, `[]` when absent |
| FinanceStorage.Storage.GetCategories | src/lib/finance-storage.ts:51-54 | reads the categories, the defaults when absent |
| FinanceStorage.Storage.GetBudgets | src/lib/finance-storage.ts:63-66 | reads the budgets, `[]` when absent |
| FinanceStorage.Storage.SaveTransaction | src/lib/finance-storage.ts:30-34 | the stored transactions gain exactly the new one at the end; only that key is written |
| FinanceStorage.Storage.UpdateTransaction | src/lib/finance-storage.ts:36-43 | stored list becomes `ListOps.UpdateTransaction` of the old one; with an unknown id the store is untouched |
| FinanceStorage.Storage.DeleteTransaction | src/lib/finance-storage.ts:45-48 | stored list becomes the old one without the id; the key is written even when it was absent |
| FinanceStorage.Storage.SaveCategory | src/lib/finance-storage.ts:56-60 | the categories as read, defaults included, gain the new one at the end |
| FinanceStorage.Storage.SaveBudget | src/lib/finance-storage.ts:68-77 | stored budgets become the upsert of the old ones, and one budget per category is preserved |
| FinanceStorage.Storage.DeleteBudget | src/lib/finance-storage.ts:79-82 | stored budgets become the old ones without the id |
| FinanceStorage.Storage.InitializeData | src/lib/finance-storage.ts:85-89 | the store becomes its seeded form |
| UseFinance.GetStats | src/hooks/use-finance.ts:62-97 | balance identities for both periods; all zero for no transactions; with non-negative amounts each monthly figure lies between 0 and its all-time figure |
| UseFinance.MonthlyAtMostTotal | src/hooks/use-finance.ts:67-87 | a month's total of one type never exceeds its all-time total (non-negative amounts) |
| UseFinance.FilterSnoc | src/hooks/use-finance.ts:67-71 | filtering a list with one more transaction adds it exactly when it passes |
| UseFinance.KindTotalSnoc | src/hooks/use-finance.ts:73-79 | one more transaction raises the total of its own type by its amount and no other |
| UseFinance.StatsAppend | src/hooks/use-finance.ts:67-96 | one more transaction goes into the total of its type, and into the monthly figure exactly when its month and year are `now`'s |
| UseFinance.ExpensesByCategory | src/hooks/use-finance.ts:100-114 | the breakdown is the entries of the expense categories with a positive spend, in declaration order |
| UseFinance.ExpensesByCategoryEntries | src/hooks/use-finance.ts:101-113 | every entry is positive and belongs to an expense category; every expense category with a positive spend has its entry |
| UseFinance.CategorySpendIgnoresIncome | src/hooks/use-finance.ts:103-105 | an income transaction never changes a category's spend |
| UseFinance.ExpensesByCategoryIgnoresIncome | src/hooks/use-finance.ts:100-113 | an income transaction never changes the breakdown |
| UseFinance.MonthEntry | src/hooks/use-finance.ts:126-145 | a trend entry is for the given month and its net is income minus expenses |
| UseFinance.QuietMonth | src/hooks/use-finance.ts:126-145 | a month with no transaction shows zero income, expenses and net |
| UseFinance.TrendPrefixAt | src/hooks/use-finance.ts:121-146 | the k-th entry pushed is the entry for the month 5 − k months back |
| UseFinance.GetMonthlyTrend | src/hooks/use-finance.ts:117-149 | the loop pushes exactly the six-entry window, oldest first |
| UseFinance.TrendWindow | src/hooks/use-finance.ts:117-149 | entry k is for the month 5 − k months before `now`'s, with its own totals; the last is `now`'s month |
| UseFinance.TrendConsecutive | src/hooks/use-finance.ts:121-122 | successive entries are successive calendar months |
| UseFinance.FinanceState.constructor | src/hooks/use-finance.ts:12-18 | mounting seeds the store and loads the three collections as they were stored, with the defaults when no categories were stored |
| UseFinance.FinanceState.AddTransaction | src/hooks/use-finance.ts:21-29 | store first, then the in-memory list grows by the stamped transaction at the end; the store's transactions key alone is rewritten, to the new list; nothing else changes |
| UseFinance.FinanceState.DeleteTransaction | src/hooks/use-finance.ts:32-35 | store and memory both lose exactly the transactions with the id; only the transactions key is rewritten |
| UseFinance.FinanceState.AddCategory | src/hooks/use-finance.ts:38-45 | store first, then the categories grow by the stamped category at the end; only the categories key is rewritten |
| UseFinance.FinanceState.UpdateBudget | src/hooks/use-finance.ts:48-59 | the in-memory budgets become the same category-keyed upsert as the store's, and only the budgets key is rewritten |
| BudgetTracker.PeriodStart | src/components/budget-tracker.tsx:54-63 | a valid date; January 1 for yearly; the 1st of the month for monthly; never after `now`, and strictly before it for weekly |
| BudgetTracker.WeeklyStart | src/components/budget-tracker.tsx:55-57 | the weekly start is the date seven days back, across month and year boundaries |
| BudgetTracker.BudgetData | src/components/budget-tracker.tsx:50-77 | remaining is limit − spent; percentage is 0 without a positive limit, else spent × 100 / limit; with non-negative amounts spent is between 0 and the category's all-time spend |
| BudgetTracker.SpentWithinCategory | src/components/budget-tracker.tsx:65-71 | the period's spend is part of the category's expense total |
| BudgetTracker.SpentAppend | src/components/budget-tracker.tsx:65-71 | one more transaction adds its amount iff it is an expense on the category dated on or after the start |
| BudgetTracker.BoundaryDayCounts | src/components/budget-tracker.tsx:69 | an expense dated on the period's first day counts |
| BudgetTracker.DayBeforeDoesNotCount | src/components/budget-tracker.tsx:69 | an expense dated before the period start does not count |
| BudgetTracker.StoredSpentIgnored | src/components/budget-tracker.tsx:65-74 | the stored `spent` and the id never affect the figures |
| BudgetTracker.HalfUsedExample | src/components/budget-tracker.tsx:50-77 | 50 spent on the 1st against a monthly limit of 100 gives spent 50, 50 percent, 50 remaining |
| BudgetTracker.PercentageThresholds | src/components/budget-tracker.tsx:73 | for a positive limit, 100 percent is reached iff spent reaches the limit, and 80 percent iff spent reaches four fifths of it |
| BudgetTracker.ShareThresholds | src/components/budget-tracker.tsx:73 | the same threshold equivalences for any share `p` with `p × limit = spent × 100` |
| BudgetTracker.StatusBadge | src/components/budget-tracker.tsx:102-110 | Over Budget iff at least 100, Warning iff from 80 to under 100, On Track iff under 80 |
| BudgetTracker.ProgressColor | src/components/budget-tracker.tsx:96-100 | the danger colour exactly from 100%, the warning colour exactly from 80% to below 100%, the success colour exactly below 80% |
| BudgetTracker.BadgeText | src/components/budget-tracker.tsx:102-110 | the badge reads "Over Budget" exactly from 100%, "Warning" exactly from 80% to below 100%, "On Track" exactly below 80% |
| BudgetTracker.ColorMatchesBadge | src/components/budget-tracker.tsx:96-110 | the progress colour and the badge always agree |
| BudgetTracker.StatusMonotone | src/components/budget-tracker.tsx:102-110 | a higher percentage never shows a milder status |
| BudgetTracker.ProgressValue | src/components/budget-tracker.tsx:343 | the bar value is at most 100, equals the percentage up to 100, and is non-negative for a non-negative percentage |
| BudgetTracker.FullBarIsOverBudget | src/components/budget-tracker.tsx:96-110 | the bar is full iff the badge says Over Budget |
| BudgetTracker.HandleAddBudget | src/components/budget-tracker.tsx:79-90 | nothing is saved iff the category or limit field is empty; otherwise the budget has the chosen fields and spent 0 |
| BudgetTracker.AvailableCategories | src/components/budget-tracker.tsx:47 | the choices are exactly the expense categories with no budget of that name, in declaration order |
| BudgetTracker.AvailableAfterUpsert | src/components/budget-tracker.tsx:161-162 | after a save, a category is offered iff it was offered before and is not the saved budget's category |
| BudgetTracker.AddedCategoryNoLongerOffered | src/components/budget-tracker.tsx:79-94 | a budget added through the form removes its category from the choices |
| TransactionList.Filtered | src/components/transaction-list.tsx:43-44 | the two filters keep exactly the transactions passing both, in order; "all" and "all" keep everything |
| TransactionList.InsertAddsOne | src/components/transaction-list.tsx:45 | inserting adds exactly the inserted transaction |
| TransactionList.InsertBelow | src/components/transaction-list.tsx:45 | an upper bound on the dates of the list and the inserted transaction bounds the result |
| TransactionList.InsertKeepsOrder | src/components/transaction-list.tsx:45 | insertion keeps a list newest first |
| TransactionList.SortNewestFirst | src/components/transaction-list.tsx:45 | the sorted list has the input's length and is newest first |
| TransactionList.SortPermutes | src/components/transaction-list.tsx:45 | the sort is a permutation of its input |
| TransactionList.InsertStable | src/components/transaction-list.tsx:45 | an inserted transaction goes after all of its own day |
| TransactionList.SortStable | src/components/transaction-list.tsx:45 | the sort is stable: transactions of one day keep their input order |
| TransactionList.SortedFromInput | src/components/transaction-list.tsx:42-45 | every sorted transaction is from the input and passes both filters |
| TransactionList.VisibleTransactions | src/components/transaction-list.tsx:42-50 | shown rows come from the input, pass the filters and are newest first; with the limit they are the first min(8, n) of the sorted list, without it a permutation of the filtered list |
| TransactionList.VisibleComplete | src/components/transaction-list.tsx:42-50 | every passing transaction is shown without the limit, and with it when at most eight pass |
| TransactionList.LimitKeepsNewest | src/components/transaction-list.tsx:48-50 | a passing transaction cut by the limit is no newer than any shown one |
| TransactionList.ShowingFooter | src/components/transaction-list.tsx:216-224 | the footer appears iff the limit is on and there are more than eight transactions; it counts at most eight against all transactions |
| TransactionList.FooterCountsShown | src/components/transaction-list.tsx:216-224 | for the shown list the footer's N is its length and never exceeds M |

## Left out

- Rendering, animation, charts and currency or date formatting are not modelled. These are the JSX, `framer-motion`, `recharts` and `Intl` parts.
- `src/components/transaction-form.tsx` is not part of this model. It is form state, an empty-field check and a random colour pick.
- The clock, `crypto.randomUUID()` and `toISOString()` are not modelled. `now`, fresh ids and creation times are parameters.
- The trend's month label from `toLocaleString` is locale-dependent. Each entry carries `(year, month)` instead.
- React's lifecycle is not modelled: `useState`, `useEffect`, `useCallback` and the `loading` flag. The mount effect is the `FinanceState` constructor.
- JSON encoding and decoding are taken to be inverse, so a key holds parsed records. An empty stored string, which the source treats as absent, cannot arise.
- A failing storage call (quota, unavailable store) is not modelled. Every write succeeds.
- Time zones are not modelled. Transaction dates are civil days compared as `(year, month, day)`. The source parses `"YYYY-MM-DD"` as UTC midnight and builds period starts at local midnight.
- `Calendar.FromParts`: does not model JavaScript's mapping of years 0 to 99 to 1900 to 1999.
- Floating-point `number` amounts and `parseFloat` are not modelled. Amounts are whole cents, and the parsed limit is a parameter of `HandleAddBudget` (a `NaN` limit cannot arise).
- Reads return values. `getCategories` returns the shared default array that `saveCategory` then pushes into; that aliasing is not modelled.
- `TransactionPatch` gives each field as present or absent. A field present with the value `undefined`, which the spread would copy, is not modelled.
- The category filter's sentinel `"all"` is modelled as the code has it. A category literally named "all" therefore cannot be filtered on.
- `UseFinance.ExpensesByCategory`: the entries are not proved to sum to the total expenses, because they need not: an expense under a name that is no expense category is in no entry, and a shared name is counted twice. `UseFinance.ExpensesByCategoryEntries` states what each entry is instead.
