/** The storage gateway (`financeStorage` in `src/lib/finance-storage.ts`).

    The browser's key-value store is the field `local`: one key per
    collection, each holding that collection's records. JSON encoding and
    decoding are taken to be inverse, so a key holds the records themselves.
    Every write reads the collection, changes it and writes the whole
    collection back under its key; no other key is touched. */
module FinanceStorage {
  import opened FinanceTypes
  import opened SeqOps
  import opened ListOps

  const TRANSACTIONS_KEY := "finance-tracker-transactions"
  const CATEGORIES_KEY := "finance-tracker-categories"
  const BUDGETS_KEY := "finance-tracker-budgets"

  /** What a key holds once its text is parsed. */
  datatype Stored =
    | TransactionRecords(transactions: seq<Transaction>)
    | CategoryRecords(categories: seq<Category>)
    | BudgetRecords(budgets: seq<Budget>)

  /** The categories a fresh store starts with: three income categories,
      then seven expense categories, with ids "1" to "10". */
  function DefaultCategories(): (r: seq<Category>)
    ensures |r| == 10
    ensures forall i :: 0 <= i < 3 ==> r[i].kind == Income
    ensures forall i :: 3 <= i < 10 ==> r[i].kind == Expense
    ensures [r[0].id, r[1].id, r[2].id, r[3].id, r[4].id, r[5].id, r[6].id, r[7].id, r[8].id, r[9].id]
         == ["1", "2", "3", "4", "5", "6", "7", "8", "9", "10"]
  {
    [ Category("1", "Salary", Income, "\U{1F4B0}", "#10b981"),
      Category("2", "Freelance", Income, "\U{1F4BB}", "#3b82f6"),
      Category("3", "Investment", Income, "\U{1F4C8}", "#8b5cf6"),
      Category("4", "Food & Dining", Expense, "\U{1F355}", "#ef4444"),
      Category("5", "Transportation", Expense, "\U{1F697}", "#f59e0b"),
      Category("6", "Shopping", Expense, "\U{1F6CD}\U{FE0F}", "#ec4899"),
      Category("7", "Entertainment", Expense, "\U{1F3AC}", "#6366f1"),
      Category("8", "Utilities", Expense, "\U{1F4A1}", "#84cc16"),
      Category("9", "Healthcare", Expense, "\U{1F3E5}", "#06b6d4"),
      Category("10", "Education", Expense, "\U{1F4DA}", "#8b5cf6") ]
  }

  /** Each collection key, when present, holds records of its own kind. */
  predicate WellFormed(local: map<string, Stored>) {
    && (TRANSACTIONS_KEY in local ==> local[TRANSACTIONS_KEY].TransactionRecords?)
    && (CATEGORIES_KEY in local ==> local[CATEGORIES_KEY].CategoryRecords?)
    && (BUDGETS_KEY in local ==> local[BUDGETS_KEY].BudgetRecords?)
  }

  /** `getTransactions()`: the stored list, or `[]` when the key is absent. */
  function TransactionsIn(local: map<string, Stored>): (r: seq<Transaction>)
    requires WellFormed(local)
    ensures TRANSACTIONS_KEY !in local ==> r == []
  {
    if TRANSACTIONS_KEY in local then local[TRANSACTIONS_KEY].transactions else []
  }

  /** `getCategories()`: the stored list, or the defaults when the key is absent. */
  function CategoriesIn(local: map<string, Stored>): (r: seq<Category>)
    requires WellFormed(local)
    ensures CATEGORIES_KEY !in local ==> r == DefaultCategories()
  {
    if CATEGORIES_KEY in local then local[CATEGORIES_KEY].categories else DefaultCategories()
  }

  /** `getBudgets()`: the stored list, or `[]` when the key is absent. */
  function BudgetsIn(local: map<string, Stored>): (r: seq<Budget>)
    requires WellFormed(local)
    ensures BUDGETS_KEY !in local ==> r == []
  {
    if BUDGETS_KEY in local then local[BUDGETS_KEY].budgets else []
  }

  /** The store after `initializeData()`: the defaults are written only when
      no categories key exists. */
  function Seeded(local: map<string, Stored>): (r: map<string, Stored>)
    requires WellFormed(local)
    ensures WellFormed(r)
    ensures CATEGORIES_KEY in r
    ensures CATEGORIES_KEY in local ==> r == local
  {
    if CATEGORIES_KEY in local then local
    else local[CATEGORIES_KEY := CategoryRecords(DefaultCategories())]
  }

  /** Seeding twice is seeding once. */
  lemma SeededIdempotent(local: map<string, Stored>)
    requires WellFormed(local)
    ensures Seeded(Seeded(local)) == Seeded(local)
  {
  }

  /** Seeding never changes what is read back: not the stored categories,
      which it leaves alone, nor the defaults, which it writes. Nor does it
      touch any other key. */
  lemma SeededReadsAlike(local: map<string, Stored>)
    requires WellFormed(local)
    ensures CategoriesIn(Seeded(local)) == CategoriesIn(local)
    ensures TransactionsIn(Seeded(local)) == TransactionsIn(local)
    ensures BudgetsIn(Seeded(local)) == BudgetsIn(local)
    ensures forall k :: k != CATEGORIES_KEY ==> (k in Seeded(local) <==> k in local)
    ensures forall k :: k != CATEGORIES_KEY && k in local ==> k in Seeded(local) && Seeded(local)[k] == local[k]
  {
  }

  /** Deleting a transaction twice leaves the same store as deleting it once. */
  lemma DeleteTransactionTwice(local: map<string, Stored>, id: string)
    requires WellFormed(local)
    ensures var once := local[TRANSACTIONS_KEY := TransactionRecords(RemoveTransaction(TransactionsIn(local), id))];
      && WellFormed(once)
      && once[TRANSACTIONS_KEY := TransactionRecords(RemoveTransaction(TransactionsIn(once), id))] == once
  {
    RemoveTransactionIdempotent(TransactionsIn(local), id);
  }

  /** Deleting a budget twice leaves the same store as deleting it once. */
  lemma DeleteBudgetTwice(local: map<string, Stored>, id: string)
    requires WellFormed(local)
    ensures var once := local[BUDGETS_KEY := BudgetRecords(RemoveBudget(BudgetsIn(local), id))];
      && WellFormed(once)
      && once[BUDGETS_KEY := BudgetRecords(RemoveBudget(BudgetsIn(once), id))] == once
  {
    RemoveBudgetIdempotent(BudgetsIn(local), id);
  }

  class Storage {
    /** The browser's key-value store, keys to parsed records. */
    var local: map<string, Stored>

    ghost predicate Valid()
      reads this
    {
      WellFormed(local)
    }

    /** A store holding whatever an earlier session left in it. */
    constructor (initial: map<string, Stored>)
      requires WellFormed(initial)
      ensures Valid() && local == initial
    {
      local := initial;
    }

    function GetTransactions(): (r: seq<Transaction>)
      reads this
      requires Valid()
      ensures TRANSACTIONS_KEY !in local ==> r == []
    {
      TransactionsIn(local)
    }

    function GetCategories(): (r: seq<Category>)
      reads this
      requires Valid()
      ensures CATEGORIES_KEY !in local ==> r == DefaultCategories()
    {
      CategoriesIn(local)
    }

    function GetBudgets(): (r: seq<Budget>)
      reads this
      requires Valid()
      ensures BUDGETS_KEY !in local ==> r == []
    {
      BudgetsIn(local)
    }

    /** Appends `t` to the stored transactions. */
    method SaveTransaction(t: Transaction)
      requires Valid()
      modifies this
      ensures Valid()
      ensures GetTransactions() == old(GetTransactions()) + [t]
      ensures local == old(local)[TRANSACTIONS_KEY := TransactionRecords(GetTransactions())]
    {
      var transactions := GetTransactions();
      transactions := transactions + [t];
      local := local[TRANSACTIONS_KEY := TransactionRecords(transactions)];
    }

    /** Overrides the first transaction with id `id` by `updates`. With no
        such transaction nothing at all is written. */
    method UpdateTransaction(id: string, updates: TransactionPatch)
      requires Valid()
      modifies this
      ensures Valid()
      ensures GetTransactions() == ListOps.UpdateTransaction(old(GetTransactions()), id, updates)
      ensures (forall i :: 0 <= i < |old(GetTransactions())| ==> old(GetTransactions())[i].id != id) ==>
        local == old(local)
      ensures (exists i :: 0 <= i < |old(GetTransactions())| && old(GetTransactions())[i].id == id) ==>
        local == old(local)[TRANSACTIONS_KEY := TransactionRecords(GetTransactions())]
    {
      var transactions := GetTransactions();
      var index := FirstIndex(transactions, TransactionWithId(id));
      if index != -1 {
        transactions := transactions[index := ApplyPatch(transactions[index], updates)];
        local := local[TRANSACTIONS_KEY := TransactionRecords(transactions)];
      }
    }

    /** Writes back the stored transactions without those with id `id`. The
        key is written even when it was absent. */
    method DeleteTransaction(id: string)
      requires Valid()
      modifies this
      ensures Valid()
      ensures GetTransactions() == RemoveTransaction(old(GetTransactions()), id)
      ensures local == old(local)[TRANSACTIONS_KEY := TransactionRecords(GetTransactions())]
    {
      var transactions := RemoveTransaction(GetTransactions(), id);
      local := local[TRANSACTIONS_KEY := TransactionRecords(transactions)];
    }

    /** Appends `c` to the categories as read, so to the defaults when the
        key is absent. */
    method SaveCategory(c: Category)
      requires Valid()
      modifies this
      ensures Valid()
      ensures GetCategories() == old(GetCategories()) + [c]
      ensures local == old(local)[CATEGORIES_KEY := CategoryRecords(GetCategories())]
    {
      var categories := GetCategories();
      categories := categories + [c];
      local := local[CATEGORIES_KEY := CategoryRecords(categories)];
    }

    /** Upsert keyed by category name: replaces the first budget for
        `budget.category` in place, or appends. */
    method SaveBudget(budget: Budget)
      requires Valid()
      modifies this
      ensures Valid()
      ensures GetBudgets() == UpsertBudget(old(GetBudgets()), budget)
      ensures local == old(local)[BUDGETS_KEY := BudgetRecords(GetBudgets())]
      ensures OnePerCategory(old(GetBudgets())) ==> OnePerCategory(GetBudgets())
    {
      var budgets := GetBudgets();
      var index := FirstIndex(budgets, BudgetFor(budget.category));
      if index != -1 {
        budgets := budgets[index := budget];
      } else {
        budgets := budgets + [budget];
      }
      local := local[BUDGETS_KEY := BudgetRecords(budgets)];
      if OnePerCategory(old(GetBudgets())) {
        UpsertKeepsOnePerCategory(old(GetBudgets()), budget);
      }
    }

    /** Writes back the stored budgets without those with id `id`. */
    method DeleteBudget(id: string)
      requires Valid()
      modifies this
      ensures Valid()
      ensures GetBudgets() == RemoveBudget(old(GetBudgets()), id)
      ensures local == old(local)[BUDGETS_KEY := BudgetRecords(GetBudgets())]
    {
      var budgets := RemoveBudget(GetBudgets(), id);
      local := local[BUDGETS_KEY := BudgetRecords(budgets)];
    }

    /** Writes the default categories when no categories key exists. */
    method InitializeData()
      requires Valid()
      modifies this
      ensures Valid()
      ensures local == Seeded(old(local))
    {
      if CATEGORIES_KEY !in local {
        local := local[CATEGORIES_KEY := CategoryRecords(DefaultCategories())];
      }
    }
  }
}
