/** The budget tracker's logic (`src/components/budget-tracker.tsx`): how
    much of a budget has been used in its current period, the status shown
    for it, the guard on adding a budget and the categories offered for a
    new one. `now` is a parameter; the clock is not part of this model. */
module BudgetTracker {
  import opened Calendar
  import opened FinanceTypes
  import opened SeqOps
  import opened ListOps
  import opened UseFinance

  // ------------------------------------------------------------ period start

  /** The first day a budget of `period` counts from: seven days before
      `now` for a weekly budget, January 1 for a yearly one, the first of
      the month otherwise. Each is built as the source builds it, through
      the normalising date constructor. */
  function PeriodStart(period: Period, now: Date): (start: Date)
    ensures ValidDate(start)
    ensures period == Yearly ==> start == Date(now.year, 1, 1)
    ensures ValidDate(now) && period == Monthly ==> start == Date(now.year, now.month, 1)
    ensures ValidDate(now) ==> OnOrBefore(start, now)
    ensures ValidDate(now) && period == Weekly ==> Before(start, now)
  {
    match period
    case Weekly =>
      assert ValidDate(now) ==> Before(FromParts(now.year, now.month, now.day - 7), now) by {
        if ValidDate(now) {
          SevenDaysBack(now);
        }
      }
      FromParts(now.year, now.month, now.day - 7)
    case Yearly => FromParts(now.year, 1, 1)
    case Monthly => FromParts(now.year, now.month, 1)
  }

  /** The weekly start is the date seven days back, across a month or year
      boundary when `now` is in the first week of its month. */
  lemma WeeklyStart(now: Date)
    requires ValidDate(now)
    ensures var start := PeriodStart(Weekly, now);
      && (now.day > 7 ==> start == Date(now.year, now.month, now.day - 7))
      && (now.day <= 7 ==>
            var p := PrevMonth(now.year, now.month);
            start == Date(p.year, p.month, DaysInMonth(p.year, p.month) + now.day - 7))
  {
    SevenDaysBack(now);
  }

  // ------------------------------------------------------------ spending

  /** The transactions a budget for `category` counts, from `start` on:
      expenses on that category dated on or after the start. */
  function Counted(category: string, start: Date): Transaction -> bool {
    (t: Transaction) => t.kind == Expense && t.category == category && OnOrBefore(start, t.date)
  }

  /** What `getBudgetData` returns. */
  datatype BudgetFigures = BudgetFigures(spent: int, percentage: real, remaining: int)

  /** `getBudgetData(budget)`: the amount spent in the current period, the
      share of the limit it is (0 when the limit is not positive) and what is
      left, which is negative once the limit is exceeded. */
  function BudgetData(budget: Budget, ts: seq<Transaction>, now: Date): (f: BudgetFigures)
    ensures f.remaining == budget.limit - f.spent
    ensures budget.limit <= 0 ==> f.percentage == 0.0
    ensures budget.limit > 0 ==> f.percentage * budget.limit as real == f.spent as real * 100.0
    ensures NonNegative(ts) ==> 0 <= f.spent <= CategorySpend(ts, budget.category)
  {
    var spent := Total(Filter(ts, Counted(budget.category, PeriodStart(budget.period, now))));
    assert NonNegative(ts) ==> 0 <= spent <= CategorySpend(ts, budget.category) by {
      if NonNegative(ts) {
        SpentWithinCategory(ts, budget.category, PeriodStart(budget.period, now));
      }
    }
    var percentage := if budget.limit > 0 then spent as real / budget.limit as real * 100.0 else 0.0;
    BudgetFigures(spent, percentage, budget.limit - spent)
  }

  /** With non-negative amounts, the period's spending is part of all the
      spending on the category. */
  lemma {:induction false} SpentWithinCategory(ts: seq<Transaction>, category: string, start: Date)
    requires NonNegative(ts)
    ensures 0 <= Total(Filter(ts, Counted(category, start))) <= CategorySpend(ts, category)
  {
    var onCategory := Filter(ts, SpentOn(category));
    FilterMembers(ts, SpentOn(category));
    assert NonNegative(onCategory) by {
      forall i | 0 <= i < |onCategory|
        ensures onCategory[i].amount >= 0
      {
        assert onCategory[i] in ts;
      }
    }
    TotalFilterAtMost(onCategory, Counted(category, start));
    FilterFilter(ts, SpentOn(category), Counted(category, start), Counted(category, start));
  }

  /** One more transaction at the end raises `spent` by its amount exactly
      when it is an expense on the budget's category dated on or after the
      period start; the boundary day itself counts. */
  lemma SpentAppend(budget: Budget, ts: seq<Transaction>, t: Transaction, now: Date)
    ensures BudgetData(budget, ts + [t], now).spent
         == BudgetData(budget, ts, now).spent
          + (if t.kind == Expense && t.category == budget.category
                && OnOrBefore(PeriodStart(budget.period, now), t.date)
             then t.amount else 0)
  {
    var p := Counted(budget.category, PeriodStart(budget.period, now));
    FilterSnoc(ts, t, p);
    if p(t) {
      TotalAppend(Filter(ts, p), [t]);
    } else {
      assert Filter(ts + [t], p) == Filter(ts, p);
    }
  }

  /** An expense dated on the first day of the period counts in full. */
  lemma BoundaryDayCounts(budget: Budget, ts: seq<Transaction>, t: Transaction, now: Date)
    requires t.kind == Expense && t.category == budget.category
    requires t.date == PeriodStart(budget.period, now)
    ensures BudgetData(budget, ts + [t], now).spent == BudgetData(budget, ts, now).spent + t.amount
  {
    SpentAppend(budget, ts, t, now);
  }

  /** An expense dated the day before the period starts does not count. */
  lemma DayBeforeDoesNotCount(budget: Budget, ts: seq<Transaction>, t: Transaction, now: Date)
    requires Before(t.date, PeriodStart(budget.period, now))
    ensures BudgetData(budget, ts + [t], now).spent == BudgetData(budget, ts, now).spent
  {
    SpentAppend(budget, ts, t, now);
  }

  /** The stored `spent` and the id are never read: two budgets that agree
      on category, limit and period have the same figures. */
  lemma StoredSpentIgnored(b1: Budget, b2: Budget, ts: seq<Transaction>, now: Date)
    requires b1.category == b2.category && b1.limit == b2.limit && b1.period == b2.period
    ensures BudgetData(b1, ts, now) == BudgetData(b2, ts, now)
  {
  }

  /** A single 50-unit expense on the first of the month against a monthly
      limit of 100: spent 50, half the limit used, 50 left. */
  lemma HalfUsedExample(now: Date, t: Transaction)
    requires ValidDate(now)
    requires t.kind == Expense && t.amount == 50 && t.category == "Food & Dining"
    requires t.date == Date(now.year, now.month, 1)
    ensures var f := BudgetData(Budget("b", "Food & Dining", 100, Monthly, 0), [t], now);
      f.spent == 50 && f.percentage == 50.0 && f.remaining == 50
  {
    var budget := Budget("b", "Food & Dining", 100, Monthly, 0);
    SpentAppend(budget, [], t, now);
    assert [] + [t] == [t];
  }

  /** For a positive limit the percentage crosses 100 exactly when the
      spending reaches the limit, and 80 exactly when it reaches four fifths
      of it. */
  lemma PercentageThresholds(budget: Budget, ts: seq<Transaction>, now: Date)
    requires budget.limit > 0
    ensures var f := BudgetData(budget, ts, now);
      && (f.percentage >= 100.0 <==> f.spent >= budget.limit)
      && (f.percentage >= 80.0 <==> 5 * f.spent >= 4 * budget.limit)
  {
    var f := BudgetData(budget, ts, now);
    ShareThresholds(f.percentage, f.spent, budget.limit);
  }

  /** A share `p` percent of a positive `limit` that equals `spent` reaches
      100 exactly when `spent` reaches `limit`, and 80 exactly when five
      times `spent` reaches four times `limit`. */
  lemma ShareThresholds(p: real, spent: int, limit: int)
    requires limit > 0
    requires p * limit as real == spent as real * 100.0
    ensures p >= 100.0 <==> spent >= limit
    ensures p >= 80.0 <==> 5 * spent >= 4 * limit
  {
    ShareAtLeast(p, spent as real, limit as real, 100.0);
    ShareAtLeast(p, spent as real, limit as real, 80.0);
  }

  /** Scaling by the positive limit keeps the order of a share and a threshold. */
  lemma ShareAtLeast(p: real, spent: real, limit: real, c: real)
    requires limit > 0.0
    requires p * limit == spent * 100.0
    ensures p >= c <==> spent * 100.0 >= c * limit
  {
    var d := p - c;
    assert p * limit - c * limit == d * limit;
    if d >= 0.0 {
      assert d * limit >= 0.0;
    } else {
      assert d * limit < 0.0;
    }
  }

  // ------------------------------------------------------------ status

  /** The three states a budget's progress is shown in. */
  datatype Status = OnTrack | Warning | OverBudget

  /** `getStatusBadge`: over budget from 100 percent, a warning from 80. */
  function StatusBadge(percentage: real): (s: Status)
    ensures s == OverBudget <==> percentage >= 100.0
    ensures s == Warning <==> 80.0 <= percentage < 100.0
    ensures s == OnTrack <==> percentage < 80.0
  {
    if percentage >= 100.0 then OverBudget
    else if percentage >= 80.0 then Warning
    else OnTrack
  }

  /** The badge's text. */
  function BadgeLabel(s: Status): string {
    match s
    case OverBudget => "Over Budget"
    case Warning => "Warning"
    case OnTrack => "On Track"
  }

  const DANGER_COLOR := "#EF4444"
  const WARNING_COLOR := "#F59E0B"
  const SUCCESS_COLOR := "#10B981"

  /** The palette colour of each state. */
  function StatusColor(s: Status): string {
    match s
    case OverBudget => DANGER_COLOR
    case Warning => WARNING_COLOR
    case OnTrack => SUCCESS_COLOR
  }

  /** `getProgressColor`: its own copy of the thresholds. */
  function ProgressColor(percentage: real): (c: string)
    ensures c == DANGER_COLOR <==> percentage >= 100.0
    ensures c == WARNING_COLOR <==> 80.0 <= percentage < 100.0
    ensures c == SUCCESS_COLOR <==> percentage < 80.0
  {
    if percentage >= 100.0 then DANGER_COLOR
    else if percentage >= 80.0 then WARNING_COLOR
    else SUCCESS_COLOR
  }

  /** The badge's text names the threshold band the percentage falls in. */
  lemma BadgeText(percentage: real)
    ensures BadgeLabel(StatusBadge(percentage)) == "Over Budget" <==> percentage >= 100.0
    ensures BadgeLabel(StatusBadge(percentage)) == "Warning" <==> 80.0 <= percentage < 100.0
    ensures BadgeLabel(StatusBadge(percentage)) == "On Track" <==> percentage < 80.0
  {
  }

  /** The progress bar's colour and the badge always tell the same story. */
  lemma ColorMatchesBadge(percentage: real)
    ensures ProgressColor(percentage) == StatusColor(StatusBadge(percentage))
  {
  }

  function Severity(s: Status): nat {
    match s
    case OnTrack => 0
    case Warning => 1
    case OverBudget => 2
  }

  /** More of the limit used never shows a milder state. */
  lemma StatusMonotone(p: real, q: real)
    requires p <= q
    ensures Severity(StatusBadge(p)) <= Severity(StatusBadge(q))
  {
  }

  /** The progress bar's value, `Math.min(percentage, 100)`. */
  function ProgressValue(percentage: real): (v: real)
    ensures v <= 100.0
    ensures percentage <= 100.0 ==> v == percentage
    ensures percentage >= 0.0 ==> v >= 0.0
  {
    if percentage < 100.0 then percentage else 100.0
  }

  /** The bar is full exactly when the badge says over budget. */
  lemma FullBarIsOverBudget(percentage: real)
    ensures ProgressValue(percentage) == 100.0 <==> StatusBadge(percentage) == OverBudget
  {
  }

  // ------------------------------------------------------------ adding a budget

  /** `handleAddBudget`: nothing happens while the category or the limit
      field is empty; otherwise the budget passed to `onUpdateBudget`, with
      the fresh id, the chosen category, the parsed limit, the period and
      nothing spent. */
  function HandleAddBudget(category: string, limitText: string, parsedLimit: int,
                           period: Period, freshId: string): (r: Option<Budget>)
    ensures r.None? <==> category == "" || limitText == ""
    ensures r.Some? ==> r.value == Budget(freshId, category, parsedLimit, period, 0)
  {
    if category == "" || limitText == "" then None
    else Some(Budget(freshId, category, parsedLimit, period, 0))
  }

  /** A category that no budget is for yet. */
  function Unbudgeted(bs: seq<Budget>): Category -> bool {
    (c: Category) => !HasBudgetFor(bs, c.name)
  }

  /** The categories the add-budget form offers. */
  function Offered(bs: seq<Budget>): Category -> bool {
    (c: Category) => c.kind == Expense && !HasBudgetFor(bs, c.name)
  }

  /** The add-budget choices: the expense categories, then those no budget
      is for yet. They are exactly the offered categories, in declaration
      order. */
  function AvailableCategories(cats: seq<Category>, bs: seq<Budget>): (r: seq<Category>)
    ensures r == Filter(cats, Offered(bs))
    ensures forall i :: 0 <= i < |r| ==> r[i] in cats && r[i].kind == Expense && !HasBudgetFor(bs, r[i].name)
    ensures forall i :: 0 <= i < |cats| && cats[i].kind == Expense && !HasBudgetFor(bs, cats[i].name) ==>
      cats[i] in r
  {
    FilterFilter(cats, IsExpenseCategory(), Unbudgeted(bs), Offered(bs));
    FilterMembers(cats, Offered(bs));
    Filter(Filter(cats, IsExpenseCategory()), Unbudgeted(bs))
  }

  /** After a budget is saved, its category is no longer offered, and every
      other category is offered exactly as before. */
  lemma AvailableAfterUpsert(cats: seq<Category>, bs: seq<Budget>, b: Budget, c: Category)
    ensures c in AvailableCategories(cats, UpsertBudget(bs, b))
       <==> c in AvailableCategories(cats, bs) && c.name != b.category
  {
    var after, before := AvailableCategories(cats, UpsertBudget(bs, b)), AvailableCategories(cats, bs);
    UpsertHasBudgetFor(bs, b, c.name);
    if c in after {
      var i :| 0 <= i < |after| && after[i] == c;
      var j :| 0 <= j < |cats| && cats[j] == c;
      assert c in before;
    }
    if c in before && c.name != b.category {
      var i :| 0 <= i < |before| && before[i] == c;
      var j :| 0 <= j < |cats| && cats[j] == c;
      assert c in after;
    }
  }

  /** Adding a budget through the form removes its category from the
      choices. */
  lemma AddedCategoryNoLongerOffered(cats: seq<Category>, bs: seq<Budget>, category: string,
                                     limitText: string, parsedLimit: int, period: Period,
                                     freshId: string, c: Category)
    requires HandleAddBudget(category, limitText, parsedLimit, period, freshId).Some?
    requires c.name == category
    ensures c !in AvailableCategories(cats, UpsertBudget(bs, HandleAddBudget(category, limitText, parsedLimit, period, freshId).value))
  {
    AvailableAfterUpsert(cats, bs, HandleAddBudget(category, limitText, parsedLimit, period, freshId).value, c);
  }
}
