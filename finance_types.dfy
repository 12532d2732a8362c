/** The records of the finance tracker (`src/types/finance.ts`), with amounts
    in whole cents and dates as civil triples, and the amount sum that every
    aggregation ends in (`.reduce((sum, t) => sum + t.amount, 0)`). */
module FinanceTypes {
  import opened Calendar
  import opened SeqOps

  datatype Option<T> = None | Some(value: T)

  /** `'income' | 'expense'`. */
  datatype TxType = Income | Expense

  /** `'monthly' | 'weekly' | 'yearly'`. */
  datatype Period = Monthly | Weekly | Yearly

  /** A transaction. `date` is the day the money moved; `createdAt` is the
      opaque timestamp string of when it was recorded. */
  datatype Transaction = Transaction(
    id: string,
    kind: TxType,
    amount: int,
    category: string,
    description: string,
    date: Date,
    createdAt: string)

  /** A transaction as the form submits it, before it has an id and a
      creation time (`Omit<Transaction, 'id' | 'createdAt'>`). */
  datatype TransactionDraft = TransactionDraft(
    kind: TxType,
    amount: int,
    category: string,
    description: string,
    date: Date)

  datatype Category = Category(
    id: string,
    name: string,
    kind: TxType,
    icon: string,
    color: string)

  /** A category before it has an id (`Omit<Category, 'id'>`). */
  datatype CategoryDraft = CategoryDraft(name: string, kind: TxType, icon: string, color: string)

  /** A budget for the category NAMED `category`. `spent` is stored but never
      read: what has been spent is always recomputed from transactions. */
  datatype Budget = Budget(
    id: string,
    category: string,
    limit: int,
    period: Period,
    spent: int)

  datatype FinanceStats = FinanceStats(
    totalIncome: int,
    totalExpenses: int,
    balance: int,
    monthlyIncome: int,
    monthlyExpenses: int,
    monthlyBalance: int)

  /** `{ ...draft, id, createdAt }`. */
  function Stamp(draft: TransactionDraft, id: string, createdAt: string): (t: Transaction)
    ensures t.id == id && t.createdAt == createdAt
    ensures t.kind == draft.kind && t.amount == draft.amount && t.category == draft.category
    ensures t.description == draft.description && t.date == draft.date
  {
    Transaction(id, draft.kind, draft.amount, draft.category, draft.description, draft.date, createdAt)
  }

  /** `{ ...draft, id }`. */
  function StampCategory(draft: CategoryDraft, id: string): (c: Category)
    ensures c.id == id && c.name == draft.name && c.kind == draft.kind
    ensures c.icon == draft.icon && c.color == draft.color
  {
    Category(id, draft.name, draft.kind, draft.icon, draft.color)
  }

  /** The sum of the amounts, added from the front as `reduce` does;
      non-negative amounts have a non-negative sum. */
  function Total(s: seq<Transaction>): (r: int)
    ensures NonNegative(s) ==> r >= 0
  {
    if s == [] then 0 else Total(s[..|s| - 1]) + s[|s| - 1].amount
  }

  /** Every amount is non-negative, as the entry form intends. */
  predicate NonNegative(s: seq<Transaction>) {
    forall i :: 0 <= i < |s| ==> s[i].amount >= 0
  }

  /** The total of two sequences back to back is the sum of their totals. */
  lemma {:induction false} TotalAppend(a: seq<Transaction>, b: seq<Transaction>)
    ensures Total(a + b) == Total(a) + Total(b)
  {
    if b != [] {
      var b' := b[..|b| - 1];
      assert (a + b)[..|a + b| - 1] == a + b';
      TotalAppend(a, b');
    } else {
      assert a + b == a;
    }
  }

  /** With non-negative amounts, keeping only some of them never raises the total. */
  lemma {:induction false} TotalFilterAtMost(s: seq<Transaction>, p: Transaction -> bool)
    requires NonNegative(s)
    ensures 0 <= Total(Filter(s, p)) <= Total(s)
  {
    if s != [] {
      var init := s[..|s| - 1];
      TotalFilterAtMost(init, p);
      if p(s[|s| - 1]) {
        assert Filter(s, p)[..|Filter(s, p)| - 1] == Filter(init, p);
      }
    }
  }
}
