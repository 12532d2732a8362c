/** The list updates that both the storage layer and the in-memory
    coordinator apply: remove by id, replace a transaction in place, and the
    budget upsert keyed by category NAME. */
module ListOps {
  import opened Calendar
  import opened FinanceTypes
  import opened SeqOps

  /** The filter predicates, named so that every use is the same term. */
  function OtherTransaction(id: string): Transaction -> bool {
    (t: Transaction) => t.id != id
  }

  function TransactionWithId(id: string): Transaction -> bool {
    (t: Transaction) => t.id == id
  }

  function OtherBudget(id: string): Budget -> bool {
    (b: Budget) => b.id != id
  }

  function BudgetFor(category: string): Budget -> bool {
    (b: Budget) => b.category == category
  }

  // ---------------------------------------------------------------- removal

  /** `transactions.filter(t => t.id !== id)`. */
  function RemoveTransaction(ts: seq<Transaction>, id: string): (r: seq<Transaction>)
    ensures forall i :: 0 <= i < |r| ==> r[i].id != id && r[i] in ts
    ensures forall i :: 0 <= i < |ts| && ts[i].id != id ==> ts[i] in r
  {
    FilterMembers(ts, OtherTransaction(id));
    Filter(ts, OtherTransaction(id))
  }

  /** Removing an id that is absent changes nothing. */
  lemma RemoveTransactionAbsent(ts: seq<Transaction>, id: string)
    requires forall i :: 0 <= i < |ts| ==> ts[i].id != id
    ensures RemoveTransaction(ts, id) == ts
  {
    FilterKeepsAll(ts, OtherTransaction(id));
  }

  /** Removing twice is removing once. */
  lemma RemoveTransactionIdempotent(ts: seq<Transaction>, id: string)
    ensures RemoveTransaction(RemoveTransaction(ts, id), id) == RemoveTransaction(ts, id)
  {
    RemoveTransactionAbsent(RemoveTransaction(ts, id), id);
  }

  /** Removal keeps the survivors in their order: it works piecewise on a
      split of the list, so no survivor moves past another. */
  lemma RemoveTransactionSplits(a: seq<Transaction>, b: seq<Transaction>, id: string)
    ensures RemoveTransaction(a + b, id) == RemoveTransaction(a, id) + RemoveTransaction(b, id)
  {
    FilterAppend(a, b, OtherTransaction(id));
  }

  /** `budgets.filter(b => b.id !== id)`. */
  function RemoveBudget(bs: seq<Budget>, id: string): (r: seq<Budget>)
    ensures forall i :: 0 <= i < |r| ==> r[i].id != id && r[i] in bs
    ensures forall i :: 0 <= i < |bs| && bs[i].id != id ==> bs[i] in r
  {
    FilterMembers(bs, OtherBudget(id));
    Filter(bs, OtherBudget(id))
  }

  lemma RemoveBudgetAbsent(bs: seq<Budget>, id: string)
    requires forall i :: 0 <= i < |bs| ==> bs[i].id != id
    ensures RemoveBudget(bs, id) == bs
  {
    FilterKeepsAll(bs, OtherBudget(id));
  }

  lemma RemoveBudgetIdempotent(bs: seq<Budget>, id: string)
    ensures RemoveBudget(RemoveBudget(bs, id), id) == RemoveBudget(bs, id)
  {
    RemoveBudgetAbsent(RemoveBudget(bs, id), id);
  }

  lemma RemoveBudgetSplits(a: seq<Budget>, b: seq<Budget>, id: string)
    ensures RemoveBudget(a + b, id) == RemoveBudget(a, id) + RemoveBudget(b, id)
  {
    FilterAppend(a, b, OtherBudget(id));
  }

  // ----------------------------------------------------------------- update

  /** `Partial<Transaction>`: a field that is `Some` overrides, `None` keeps. */
  datatype TransactionPatch = TransactionPatch(
    id: Option<string>,
    kind: Option<TxType>,
    amount: Option<int>,
    category: Option<string>,
    description: Option<string>,
    date: Option<Date>,
    createdAt: Option<string>)

  function Pick<T>(o: Option<T>, current: T): T {
    match o
    case Some(v) => v
    case None => current
  }

  /** `{ ...t, ...updates }`. */
  function ApplyPatch(t: Transaction, u: TransactionPatch): (r: Transaction)
    ensures u.id.Some? ==> r.id == u.id.value
    ensures u.id.None? ==> r.id == t.id
    ensures u.kind.Some? ==> r.kind == u.kind.value
    ensures u.kind.None? ==> r.kind == t.kind
    ensures u.amount.Some? ==> r.amount == u.amount.value
    ensures u.amount.None? ==> r.amount == t.amount
    ensures u.category.Some? ==> r.category == u.category.value
    ensures u.category.None? ==> r.category == t.category
    ensures u.description.Some? ==> r.description == u.description.value
    ensures u.description.None? ==> r.description == t.description
    ensures u.date.Some? ==> r.date == u.date.value
    ensures u.date.None? ==> r.date == t.date
    ensures u.createdAt.Some? ==> r.createdAt == u.createdAt.value
    ensures u.createdAt.None? ==> r.createdAt == t.createdAt
  {
    Transaction(
      Pick(u.id, t.id), Pick(u.kind, t.kind), Pick(u.amount, t.amount),
      Pick(u.category, t.category), Pick(u.description, t.description),
      Pick(u.date, t.date), Pick(u.createdAt, t.createdAt))
  }

  /** The list `updateTransaction` writes back: the first transaction with
      the id is overridden by the patch; with no such transaction the list is
      returned as it is (and the source does not write at all). */
  function UpdateTransaction(ts: seq<Transaction>, id: string, u: TransactionPatch): (r: seq<Transaction>)
    ensures |r| == |ts|
    ensures (forall i :: 0 <= i < |ts| ==> ts[i].id != id) ==> r == ts
    ensures forall k :: 0 <= k < |ts| && ts[k].id == id && (forall j :: 0 <= j < k ==> ts[j].id != id) ==>
      r[k] == ApplyPatch(ts[k], u) && forall j :: 0 <= j < |ts| && j != k ==> r[j] == ts[j]
  {
    var index := FirstIndex(ts, TransactionWithId(id));
    if index == -1 then ts else ts[index := ApplyPatch(ts[index], u)]
  }

  // ----------------------------------------------------------------- upsert

  /** Some budget in `bs` is for the category named `name`
      (`budgets.some(b => b.category === name)`). */
  predicate HasBudgetFor(bs: seq<Budget>, name: string) {
    exists i :: 0 <= i < |bs| && bs[i].category == name
  }

  /** No two budgets share a category name. */
  predicate OnePerCategory(bs: seq<Budget>) {
    forall i, j :: 0 <= i < j < |bs| ==> bs[i].category != bs[j].category
  }

  /** Upsert keyed by category name: replace the first budget for
      `b.category` where it stands, or append `b` when there is none. */
  function UpsertBudget(bs: seq<Budget>, b: Budget): (r: seq<Budget>)
    ensures HasBudgetFor(bs, b.category) ==> |r| == |bs|
    ensures !HasBudgetFor(bs, b.category) ==> r == bs + [b]
    ensures b in r
    ensures forall i :: 0 <= i < |r| ==> r[i] == b || r[i] in bs
    ensures forall i :: 0 <= i < |bs| && bs[i].category != b.category ==> r[i] == bs[i]
  {
    var index := FirstIndex(bs, BudgetFor(b.category));
    if index != -1 then
      assert bs[index := b][index] == b;
      bs[index := b]
    else
      assert (bs + [b])[|bs|] == b;
      bs + [b]
  }

  /** Where a budget for the category exists, the upsert replaces the FIRST
      one, at its own index, and nothing else. */
  lemma UpsertReplacesFirst(bs: seq<Budget>, b: Budget, k: nat)
    requires k < |bs| && bs[k].category == b.category
    requires forall j :: 0 <= j < k ==> bs[j].category != b.category
    ensures UpsertBudget(bs, b) == bs[k := b]
  {
  }

  /** After an upsert, a category has a budget exactly when it had one
      before or it is the upserted category. */
  lemma UpsertHasBudgetFor(bs: seq<Budget>, b: Budget, name: string)
    ensures HasBudgetFor(UpsertBudget(bs, b), name) <==> HasBudgetFor(bs, name) || name == b.category
  {
  }

  /** An upsert keeps the store at one budget per category. */
  lemma UpsertKeepsOnePerCategory(bs: seq<Budget>, b: Budget)
    requires OnePerCategory(bs)
    ensures OnePerCategory(UpsertBudget(bs, b))
  {
    var r := UpsertBudget(bs, b);
    var index := FirstIndex(bs, BudgetFor(b.category));
    forall i, j | 0 <= i < j < |r|
      ensures r[i].category != r[j].category
    {
      if index == -1 {
        assert j < |bs| ==> r[j] == bs[j];
        assert r[i] == bs[i];
      } else {
        if i == index {
          assert r[j] == bs[j];
          assert bs[index].category == b.category;
        } else if j == index {
          assert r[i] == bs[i];
          assert bs[index].category == b.category;
        } else {
          assert r[i] == bs[i] && r[j] == bs[j];
        }
      }
    }
  }

  /** With one budget per category before, the upsert leaves exactly one
      budget for `b.category`, and it is `b`. */
  lemma UpsertLeavesOnlyB(bs: seq<Budget>, b: Budget)
    requires OnePerCategory(bs)
    ensures var r := UpsertBudget(bs, b);
      forall i :: 0 <= i < |r| && r[i].category == b.category ==> r[i] == b
  {
    var r := UpsertBudget(bs, b);
    var index := FirstIndex(bs, BudgetFor(b.category));
    UpsertKeepsOnePerCategory(bs, b);
    forall i | 0 <= i < |r| && r[i].category == b.category
      ensures r[i] == b
    {
      var k :| 0 <= k < |r| && r[k] == b;
      assert k == i;
    }
  }

  /** Two upserts for the same category are the second upsert alone. */
  lemma UpsertTwice(bs: seq<Budget>, b1: Budget, b2: Budget)
    requires b1.category == b2.category
    ensures UpsertBudget(UpsertBudget(bs, b1), b2) == UpsertBudget(bs, b2)
  {
    var index := FirstIndex(bs, BudgetFor(b1.category));
    var r1 := UpsertBudget(bs, b1);
    if index == -1 {
      UpsertReplacesFirst(r1, b2, |bs|);
    } else {
      UpsertReplacesFirst(r1, b2, index);
    }
  }
}
