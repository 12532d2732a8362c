/** The finance hook (`src/hooks/use-finance.ts`): the aggregations it offers
    the screens, and the coordinator that owns the in-memory collections and
    writes every change through to storage first. The clock is the
    parameter `now`; fresh ids and creation times are parameters too. */
module UseFinance {
  import opened Calendar
  import opened FinanceTypes
  import opened SeqOps
  import opened ListOps
  import opened FinanceStorage

  // ------------------------------------------------------------- predicates

  function OfKind(kind: TxType): Transaction -> bool {
    (t: Transaction) => t.kind == kind
  }

  /** The transaction's date falls in the given calendar month. */
  function InMonth(year: int, month: int): Transaction -> bool {
    (t: Transaction) => t.date.year == year && t.date.month == month
  }

  /** An expense booked under the category named `name`. */
  function SpentOn(name: string): Transaction -> bool {
    (t: Transaction) => t.kind == Expense && t.category == name
  }

  /** `.filter(t => t.type === kind).reduce((sum, t) => sum + t.amount, 0)`. */
  function KindTotal(ts: seq<Transaction>, kind: TxType): int {
    Total(Filter(ts, OfKind(kind)))
  }

  // ------------------------------------------------------------------ stats

  /** `getStats()`: all-time and current-month income, expenses and balance;
      the current month is the month and year of `now`. */
  function GetStats(ts: seq<Transaction>, now: Date): (r: FinanceStats)
    ensures r.balance == r.totalIncome - r.totalExpenses
    ensures r.monthlyBalance == r.monthlyIncome - r.monthlyExpenses
    ensures ts == [] ==> r == FinanceStats(0, 0, 0, 0, 0, 0)
    ensures NonNegative(ts) ==>
      && 0 <= r.monthlyIncome <= r.totalIncome
      && 0 <= r.monthlyExpenses <= r.totalExpenses
  {
    var monthly := Filter(ts, InMonth(now.year, now.month));
    var totalIncome := KindTotal(ts, Income);
    var totalExpenses := KindTotal(ts, Expense);
    var monthlyIncome := KindTotal(monthly, Income);
    var monthlyExpenses := KindTotal(monthly, Expense);
    MonthlyAtMostTotal(ts, now.year, now.month, Income);
    MonthlyAtMostTotal(ts, now.year, now.month, Expense);
    FinanceStats(
      totalIncome, totalExpenses, totalIncome - totalExpenses,
      monthlyIncome, monthlyExpenses, monthlyIncome - monthlyExpenses)
  }

  /** With non-negative amounts, a month's total of one kind is at most the
      all-time total of that kind. */
  lemma MonthlyAtMostTotal(ts: seq<Transaction>, year: int, month: int, kind: TxType)
    ensures NonNegative(ts) ==>
      0 <= KindTotal(Filter(ts, InMonth(year, month)), kind) <= KindTotal(ts, kind)
  {
    if NonNegative(ts) {
      var ofKind := Filter(ts, OfKind(kind));
      FilterCommutes(ts, InMonth(year, month), OfKind(kind));
      FilterMembers(ts, OfKind(kind));
      assert NonNegative(ofKind) by {
        forall i | 0 <= i < |ofKind| ensures ofKind[i].amount >= 0 {
          assert ofKind[i] in ts;
        }
      }
      TotalFilterAtMost(ofKind, InMonth(year, month));
    }
  }

  /** Filtering a list with one more transaction at the end. */
  lemma FilterSnoc(ts: seq<Transaction>, t: Transaction, p: Transaction -> bool)
    ensures Filter(ts + [t], p) == Filter(ts, p) + (if p(t) then [t] else [])
  {
    assert (ts + [t])[..|ts|] == ts;
  }

  /** The total of one kind after one more transaction at the end. */
  lemma KindTotalSnoc(ts: seq<Transaction>, t: Transaction, kind: TxType)
    ensures KindTotal(ts + [t], kind) == KindTotal(ts, kind) + (if t.kind == kind then t.amount else 0)
  {
    FilterSnoc(ts, t, OfKind(kind));
    if t.kind == kind {
      TotalAppend(Filter(ts, OfKind(kind)), [t]);
    }
  }

  /** What one more transaction does to the stats: its amount goes to the
      total of its kind, and to the monthly figure of its kind exactly when
      its date is in `now`'s month. With the empty case in `GetStats`, this
      pins the stats down for every list. */
  lemma StatsAppend(ts: seq<Transaction>, t: Transaction, now: Date)
    ensures var before, after := GetStats(ts, now), GetStats(ts + [t], now);
      var income := if t.kind == Income then t.amount else 0;
      var expense := if t.kind == Expense then t.amount else 0;
      var current := t.date.year == now.year && t.date.month == now.month;
      && after.totalIncome == before.totalIncome + income
      && after.totalExpenses == before.totalExpenses + expense
      && after.monthlyIncome == before.monthlyIncome + (if current then income else 0)
      && after.monthlyExpenses == before.monthlyExpenses + (if current then expense else 0)
  {
    var inMonth := InMonth(now.year, now.month);
    KindTotalSnoc(ts, t, Income);
    KindTotalSnoc(ts, t, Expense);
    FilterSnoc(ts, t, inMonth);
    if inMonth(t) {
      KindTotalSnoc(Filter(ts, inMonth), t, Income);
      KindTotalSnoc(Filter(ts, inMonth), t, Expense);
    }
  }

  // -------------------------------------------------------------- breakdown

  /** One slice of the expense breakdown. */
  datatype CategoryExpense = CategoryExpense(name: string, value: int, color: string, icon: string)

  /** What has been spent on the category named `name`, over all time. */
  function CategorySpend(ts: seq<Transaction>, name: string): int {
    Total(Filter(ts, SpentOn(name)))
  }

  function IsExpenseCategory(): Category -> bool {
    (c: Category) => c.kind == Expense
  }

  function EntryFor(ts: seq<Transaction>): Category -> CategoryExpense {
    (c: Category) => CategoryExpense(c.name, CategorySpend(ts, c.name), c.color, c.icon)
  }

  function IsPositive(): CategoryExpense -> bool {
    (e: CategoryExpense) => e.value > 0
  }

  /** The categories the breakdown shows: expense categories with something spent. */
  function Shown(ts: seq<Transaction>): Category -> bool {
    (c: Category) => c.kind == Expense && CategorySpend(ts, c.name) > 0
  }

  /** `getExpensesByCategory()`: expense categories, mapped to what was spent
      on each, keeping only those above zero. The result is the entries of the
      shown categories in declaration order. */
  function ExpensesByCategory(ts: seq<Transaction>, cats: seq<Category>): (r: seq<CategoryExpense>)
    ensures r == Map(Filter(cats, Shown(ts)), EntryFor(ts))
  {
    var expenseCategories := Filter(cats, IsExpenseCategory());
    var entries := Map(expenseCategories, EntryFor(ts));
    var positiveEntry := (c: Category) => IsPositive()(EntryFor(ts)(c));
    FilterMap(expenseCategories, EntryFor(ts), IsPositive(), positiveEntry);
    FilterFilter(cats, IsExpenseCategory(), positiveEntry, Shown(ts));
    Filter(entries, IsPositive())
  }

  /** Every entry is an expense category of the list with its spend, which
      is above zero; and every expense category with a spend above zero has
      its entry. */
  lemma ExpensesByCategoryEntries(ts: seq<Transaction>, cats: seq<Category>)
    ensures var r := ExpensesByCategory(ts, cats);
      && (forall i :: 0 <= i < |r| ==> r[i].value > 0)
      && (forall i :: 0 <= i < |r| ==>
            (exists j :: 0 <= j < |cats| && cats[j].kind == Expense && r[i] == EntryFor(ts)(cats[j])))
      && (forall j :: 0 <= j < |cats| && cats[j].kind == Expense && CategorySpend(ts, cats[j].name) > 0 ==>
            EntryFor(ts)(cats[j]) in r)
  {
    var r := ExpensesByCategory(ts, cats);
    var shown := Filter(cats, Shown(ts));
    FilterMembers(cats, Shown(ts));
    forall i | 0 <= i < |r|
      ensures r[i].value > 0
      ensures exists j :: 0 <= j < |cats| && cats[j].kind == Expense && r[i] == EntryFor(ts)(cats[j])
    {
      assert Shown(ts)(shown[i]) && shown[i] in cats;
      var j :| 0 <= j < |cats| && cats[j] == shown[i];
      assert r[i] == EntryFor(ts)(cats[j]);
    }
    forall j | 0 <= j < |cats| && cats[j].kind == Expense && CategorySpend(ts, cats[j].name) > 0
      ensures EntryFor(ts)(cats[j]) in r
    {
      assert Shown(ts)(cats[j]);
      var k :| 0 <= k < |shown| && shown[k] == cats[j];
      assert r[k] == EntryFor(ts)(cats[j]);
    }
  }

  /** What has been spent on a category is unchanged by one more income. */
  lemma CategorySpendIgnoresIncome(ts: seq<Transaction>, t: Transaction, name: string)
    requires t.kind == Income
    ensures CategorySpend(ts + [t], name) == CategorySpend(ts, name)
  {
    FilterSnoc(ts, t, SpentOn(name));
  }

  /** Income never reaches the breakdown: adding an income transaction
      leaves it exactly as it was. */
  lemma ExpensesByCategoryIgnoresIncome(ts: seq<Transaction>, t: Transaction, cats: seq<Category>)
    requires t.kind == Income
    ensures ExpensesByCategory(ts + [t], cats) == ExpensesByCategory(ts, cats)
  {
    var expenseCategories := Filter(cats, IsExpenseCategory());
    forall i | 0 <= i < |expenseCategories|
      ensures EntryFor(ts + [t])(expenseCategories[i]) == EntryFor(ts)(expenseCategories[i])
    {
      CategorySpendIgnoresIncome(ts, t, expenseCategories[i].name);
    }
    MapSameFunction(expenseCategories, EntryFor(ts + [t]), EntryFor(ts));
  }

  // ------------------------------------------------------------------ trend

  /** One month of the trend. The source's label is the month's short name in
      the user's locale; here the month is named by its year and number. */
  datatype MonthTrend = MonthTrend(year: int, month: int, income: int, expenses: int, net: int)

  /** The number of months in the trend window. */
  const TREND_MONTHS := 6

  /** Income, expenses and net over the transactions dated in `d`'s month. */
  function MonthEntry(ts: seq<Transaction>, d: Date): (e: MonthTrend)
    ensures e.year == d.year && e.month == d.month
    ensures e.net == e.income - e.expenses
  {
    var inMonth := Filter(ts, InMonth(d.year, d.month));
    var income := KindTotal(inMonth, Income);
    var expenses := KindTotal(inMonth, Expense);
    MonthTrend(d.year, d.month, income, expenses, income - expenses)
  }

  /** A month in which no transaction is dated shows zero income, expenses
      and net. */
  lemma QuietMonth(ts: seq<Transaction>, d: Date)
    requires forall i :: 0 <= i < |ts| ==> !InMonth(d.year, d.month)(ts[i])
    ensures var e := MonthEntry(ts, d); e.income == 0 && e.expenses == 0 && e.net == 0
  {
    FilterDropsAll(ts, InMonth(d.year, d.month));
  }

  /** The first `n` entries of the trend window: entry `k` is for the month
      `5 - k` months before `now`'s. */
  function TrendPrefix(ts: seq<Transaction>, now: Date, n: nat): (r: seq<MonthTrend>)
    ensures |r| == n
  {
    if n == 0 then [] else TrendPrefix(ts, now, n - 1) + [MonthEntry(ts, MonthsBack(now, 6 - n))]
  }

  /** Entry `k` of the window is the entry for the month `5 - k` months
      before `now`'s, whatever the length of the prefix. */
  lemma {:induction false} TrendPrefixAt(ts: seq<Transaction>, now: Date, n: nat, k: nat)
    requires k < n
    ensures TrendPrefix(ts, now, n)[k] == MonthEntry(ts, MonthsBack(now, 5 - k))
  {
    var init := TrendPrefix(ts, now, n - 1);
    assert TrendPrefix(ts, now, n) == init + [MonthEntry(ts, MonthsBack(now, 6 - n))];
    if k < n - 1 {
      TrendPrefixAt(ts, now, n - 1, k);
      assert TrendPrefix(ts, now, n)[k] == init[k];
    } else {
      assert 5 - k == 6 - n;
    }
  }

  /** `getMonthlyTrend()`: the six months ending with `now`'s, oldest first,
      built one month at a time as the source's `for` loop does. */
  method GetMonthlyTrend(ts: seq<Transaction>, now: Date) returns (months: seq<MonthTrend>)
    ensures months == TrendPrefix(ts, now, TREND_MONTHS)
    ensures |months| == TREND_MONTHS
  {
    months := [];
    var i := 5;
    while i >= 0
      invariant -1 <= i <= 5
      invariant months == TrendPrefix(ts, now, 5 - i)
    {
      var date := MonthsBack(now, i);
      months := months + [MonthEntry(ts, date)];
      i := i - 1;
    }
  }

  /** The window holds consecutive calendar months, oldest first, each with
      its own totals; for a valid `now` the last month is `now`'s. */
  lemma TrendWindow(ts: seq<Transaction>, now: Date, k: nat)
    requires k < TREND_MONTHS
    ensures var e := TrendPrefix(ts, now, TREND_MONTHS)[k];
      && e == MonthEntry(ts, MonthsBack(now, 5 - k))
      && 1 <= e.month <= 12
      && e.year * 12 + e.month == now.year * 12 + now.month - 5 + k
      && (k == 5 && ValidDate(now) ==> e.year == now.year && e.month == now.month)
  {
    TrendPrefixAt(ts, now, TREND_MONTHS, k);
    if k == 5 && ValidDate(now) {
      MonthsBackZero(now);
    }
  }

  /** Successive entries of the window are successive calendar months. */
  lemma TrendConsecutive(ts: seq<Transaction>, now: Date, k: nat)
    requires k + 1 < TREND_MONTHS
    ensures var w := TrendPrefix(ts, now, TREND_MONTHS);
      && 1 <= w[k].month <= 12
      && NextMonth(w[k].year, w[k].month) == Date(w[k + 1].year, w[k + 1].month, 1)
  {
    TrendPrefixAt(ts, now, TREND_MONTHS, k);
    TrendPrefixAt(ts, now, TREND_MONTHS, k + 1);
    MonthsBackStep(now, 4 - k);
  }

  // ------------------------------------------------------------ coordinator

  /** The hook's state: the three collections it shows, and the store it
      writes through. In a valid state the collections are exactly what the
      store would read back. */
  class FinanceState {
    var transactions: seq<Transaction>
    var categories: seq<Category>
    var budgets: seq<Budget>
    const storage: Storage

    ghost predicate Valid()
      reads this, storage
    {
      && storage.Valid()
      && transactions == storage.GetTransactions()
      && categories == storage.GetCategories()
      && budgets == storage.GetBudgets()
    }

    /** The mount effect: seed the default categories, then load all three
        collections from the store. */
    constructor (storage: Storage)
      requires storage.Valid()
      modifies storage
      ensures this.storage == storage && Valid()
      ensures storage.local == Seeded(old(storage.local))
      ensures transactions == TransactionsIn(old(storage.local))
      ensures categories == CategoriesIn(old(storage.local))
      ensures budgets == BudgetsIn(old(storage.local))
    {
      this.storage := storage;
      new;
      SeededReadsAlike(storage.local);
      storage.InitializeData();
      transactions := storage.GetTransactions();
      categories := storage.GetCategories();
      budgets := storage.GetBudgets();
    }

    /** Stamps the draft with the fresh id and creation time, stores it, then
        appends it to the in-memory list. */
    method AddTransaction(draft: TransactionDraft, id: string, createdAt: string)
      requires Valid()
      modifies this, storage
      ensures Valid()
      ensures transactions == old(transactions) + [Stamp(draft, id, createdAt)]
      ensures storage.local == old(storage.local)[TRANSACTIONS_KEY := TransactionRecords(transactions)]
      ensures categories == old(categories) && budgets == old(budgets)
    {
      var t := Stamp(draft, id, createdAt);
      storage.SaveTransaction(t);
      transactions := transactions + [t];
    }

    /** Removes every transaction with the id, in the store and in memory. */
    method DeleteTransaction(id: string)
      requires Valid()
      modifies this, storage
      ensures Valid()
      ensures transactions == RemoveTransaction(old(transactions), id)
      ensures storage.local == old(storage.local)[TRANSACTIONS_KEY := TransactionRecords(transactions)]
      ensures categories == old(categories) && budgets == old(budgets)
    {
      storage.DeleteTransaction(id);
      transactions := RemoveTransaction(transactions, id);
    }

    /** Stamps the draft with the fresh id, stores it, then appends it. */
    method AddCategory(draft: CategoryDraft, id: string)
      requires Valid()
      modifies this, storage
      ensures Valid()
      ensures categories == old(categories) + [StampCategory(draft, id)]
      ensures storage.local == old(storage.local)[CATEGORIES_KEY := CategoryRecords(categories)]
      ensures transactions == old(transactions) && budgets == old(budgets)
    {
      var c := StampCategory(draft, id);
      storage.SaveCategory(c);
      categories := categories + [c];
    }

    /** Upserts the budget by category name, in the store and then in a copy
        of the in-memory list. */
    method UpdateBudget(budget: Budget)
      requires Valid()
      modifies this, storage
      ensures Valid()
      ensures budgets == UpsertBudget(old(budgets), budget)
      ensures storage.local == old(storage.local)[BUDGETS_KEY := BudgetRecords(budgets)]
      ensures transactions == old(transactions) && categories == old(categories)
    {
      storage.SaveBudget(budget);
      var index := FirstIndex(budgets, BudgetFor(budget.category));
      if index != -1 {
        var updated := budgets;
        updated := updated[index := budget];
        budgets := updated;
      } else {
        budgets := budgets + [budget];
      }
    }
  }
}
