/** The transaction list's view logic (`src/components/transaction-list.tsx`):
    keep the transactions that pass the type filter and the category filter,
    order them newest first, and cut the list to eight when the list is shown
    as a summary; then the "Showing N of M" footer. */
module TransactionList {
  import opened Calendar
  import opened FinanceTypes
  import opened SeqOps

  /** How many transactions a summary list shows. */
  const SUMMARY_LENGTH := 8

  /** The category filter's value that lets every category through. */
  const ALL_CATEGORIES := "all"

  /** The type filter: `'all'`, or one transaction type. */
  datatype TypeFilter = AllTypes | OnlyKind(kind: TxType)

  function TypePasses(tf: TypeFilter): Transaction -> bool {
    (t: Transaction) => tf.AllTypes? || t.kind == tf.kind
  }

  function CategoryPasses(cf: string): Transaction -> bool {
    (t: Transaction) => cf == ALL_CATEGORIES || t.category == cf
  }

  /** Both filters at once. */
  function Passes(tf: TypeFilter, cf: string): Transaction -> bool {
    (t: Transaction) => (tf.AllTypes? || t.kind == tf.kind) && (cf == ALL_CATEGORIES || t.category == cf)
  }

  /** The type filter and then the category filter keep exactly the
      transactions that pass both, in their order. */
  function Filtered(ts: seq<Transaction>, tf: TypeFilter, cf: string): (r: seq<Transaction>)
    ensures r == Filter(ts, Passes(tf, cf))
    ensures tf.AllTypes? && cf == ALL_CATEGORIES ==> r == ts
  {
    FilterFilter(ts, TypePasses(tf), CategoryPasses(cf), Passes(tf, cf));
    assert tf.AllTypes? && cf == ALL_CATEGORIES ==> Filter(ts, Passes(tf, cf)) == ts by {
      if tf.AllTypes? && cf == ALL_CATEGORIES {
        FilterKeepsAll(ts, Passes(tf, cf));
      }
    }
    Filter(Filter(ts, TypePasses(tf)), CategoryPasses(cf))
  }

  // ---------------------------------------------------------------- ordering

  /** Ordered by date, newest first. */
  predicate NewestFirst(s: seq<Transaction>) {
    forall i, j :: 0 <= i < j < |s| ==> OnOrBefore(s[j].date, s[i].date)
  }

  /** Puts `x` into a newest-first list after every transaction at least as
      new as it, so that among equal dates the earlier ones stay first. */
  function Insert(s: seq<Transaction>, x: Transaction): (r: seq<Transaction>)
    ensures |r| == |s| + 1
  {
    if s == [] then [x]
    else if Before(s[0].date, x.date) then [x] + s
    else [s[0]] + Insert(s[1..], x)
  }

  /** Inserting adds exactly `x`. */
  lemma {:induction false} InsertAddsOne(s: seq<Transaction>, x: Transaction)
    ensures multiset(Insert(s, x)) == multiset(s) + multiset{x}
  {
    if s != [] && !Before(s[0].date, x.date) {
      InsertAddsOne(s[1..], x);
      assert s == [s[0]] + s[1..];
    }
  }

  /** A date no older than every transaction of `s` and than `x` is no
      older than every transaction after the insertion. */
  lemma {:induction false} InsertBelow(s: seq<Transaction>, x: Transaction, top: Date)
    requires forall k :: 0 <= k < |s| ==> OnOrBefore(s[k].date, top)
    requires OnOrBefore(x.date, top)
    ensures forall k :: 0 <= k < |Insert(s, x)| ==> OnOrBefore(Insert(s, x)[k].date, top)
  {
    if s != [] && !Before(s[0].date, x.date) {
      InsertBelow(s[1..], x, top);
    }
  }

  /** A newest-first list stays newest first under a transaction at least
      as new as all of it. */
  lemma ConsNewestFirst(a: Transaction, s: seq<Transaction>)
    requires NewestFirst(s)
    requires forall k :: 0 <= k < |s| ==> OnOrBefore(s[k].date, a.date)
    ensures NewestFirst([a] + s)
  {
  }

  /** Inserting into a newest-first list keeps it newest first. */
  lemma {:induction false} InsertKeepsOrder(s: seq<Transaction>, x: Transaction)
    requires NewestFirst(s)
    ensures NewestFirst(Insert(s, x))
  {
    if s == [] {
    } else if Before(s[0].date, x.date) {
      forall k | 0 <= k < |s|
        ensures OnOrBefore(s[k].date, x.date)
      {
        assert OnOrBefore(s[k].date, s[0].date);
      }
      ConsNewestFirst(x, s);
    } else {
      var tail := s[1..];
      InsertKeepsOrder(tail, x);
      InsertBelow(tail, x, s[0].date);
      ConsNewestFirst(s[0], Insert(tail, x));
    }
  }

  /** `sort((a, b) => date(b) - date(a))`: newest first, and (the sort being
      stable) transactions of one day keep their order. Built by inserting
      each transaction in turn. */
  function SortNewestFirst(s: seq<Transaction>): (r: seq<Transaction>)
    ensures |r| == |s|
    ensures NewestFirst(r)
  {
    if s == [] then []
    else
      var sorted := SortNewestFirst(s[..|s| - 1]);
      InsertKeepsOrder(sorted, s[|s| - 1]);
      Insert(sorted, s[|s| - 1])
  }

  /** The sort rearranges and neither drops nor adds: a permutation. */
  lemma {:induction false} SortPermutes(s: seq<Transaction>)
    ensures multiset(SortNewestFirst(s)) == multiset(s)
  {
    if s != [] {
      var init, last := s[..|s| - 1], s[|s| - 1];
      SortPermutes(init);
      InsertAddsOne(SortNewestFirst(init), last);
      assert s == init + [last];
    }
  }

  /** The transactions dated `d`. */
  function DatedOn(d: Date): Transaction -> bool {
    (t: Transaction) => t.date == d
  }

  /** In a newest-first list whose first transaction is older than `d`,
      none is dated `d`. */
  lemma NoneOnLaterDay(s: seq<Transaction>, d: Date)
    requires NewestFirst(s) && s != [] && Before(s[0].date, d)
    ensures Filter(s, DatedOn(d)) == []
  {
    forall i | 0 <= i < |s|
      ensures !DatedOn(d)(s[i])
    {
      assert OnOrBefore(s[i].date, s[0].date);
    }
    FilterDropsAll(s, DatedOn(d));
  }

  /** Inserting `x` adds it after every transaction of the same day. */
  lemma {:induction false} InsertStable(s: seq<Transaction>, x: Transaction, d: Date)
    requires NewestFirst(s)
    ensures Filter(Insert(s, x), DatedOn(d)) == Filter(s, DatedOn(d)) + (if x.date == d then [x] else [])
  {
    var p := DatedOn(d);
    if s == [] {
      FilterCons(x, [], p);
    } else if Before(s[0].date, x.date) {
      FilterCons(x, s, p);
      if x.date == d {
        NoneOnLaterDay(s, d);
      }
    } else {
      var tail := s[1..];
      assert s == [s[0]] + tail;
      InsertStable(tail, x, d);
      FilterCons(s[0], tail, p);
      FilterCons(s[0], Insert(tail, x), p);
    }
  }

  /** The sort is stable: the transactions of any one day appear in the
      order they had in the input. */
  lemma {:induction false} SortStable(s: seq<Transaction>, d: Date)
    ensures Filter(SortNewestFirst(s), DatedOn(d)) == Filter(s, DatedOn(d))
  {
    if s != [] {
      var init, last := s[..|s| - 1], s[|s| - 1];
      var sorted := SortNewestFirst(init);
      assert SortNewestFirst(s) == Insert(sorted, last);
      InsertStable(sorted, last, d);
      SortStable(init, d);
      assert Filter(s, DatedOn(d)) == Filter(init, DatedOn(d)) + (if last.date == d then [last] else []);
    }
  }

  // ---------------------------------------------------------------- the view

  function Min(a: int, b: int): int {
    if a <= b then a else b
  }

  /** Every transaction of the sorted, filtered list is from the input and
      passes the filters. */
  lemma SortedFromInput(ts: seq<Transaction>, tf: TypeFilter, cf: string)
    ensures var sorted := SortNewestFirst(Filtered(ts, tf, cf));
      forall i :: 0 <= i < |sorted| ==> sorted[i] in ts && Passes(tf, cf)(sorted[i])
  {
    var sorted := SortNewestFirst(Filtered(ts, tf, cf));
    SortPermutes(Filtered(ts, tf, cf));
    FilterMembers(ts, Passes(tf, cf));
    forall i | 0 <= i < |sorted|
      ensures sorted[i] in ts && Passes(tf, cf)(sorted[i])
    {
      assert sorted[i] in multiset(Filtered(ts, tf, cf));
    }
  }

  /** `filteredTransactions`: filtered, newest first, and cut to the first
      eight when `showLimit` is set. */
  function VisibleTransactions(ts: seq<Transaction>, tf: TypeFilter, cf: string, showLimit: bool): (r: seq<Transaction>)
    ensures forall i :: 0 <= i < |r| ==> r[i] in ts && Passes(tf, cf)(r[i])
    ensures NewestFirst(r)
    ensures showLimit ==> |r| == Min(SUMMARY_LENGTH, |Filtered(ts, tf, cf)|)
    ensures showLimit ==> r == SortNewestFirst(Filtered(ts, tf, cf))[..|r|]
    ensures !showLimit ==> multiset(r) == multiset(Filtered(ts, tf, cf))
  {
    var sorted := SortNewestFirst(Filtered(ts, tf, cf));
    SortedFromInput(ts, tf, cf);
    SortPermutes(Filtered(ts, tf, cf));
    if showLimit then sorted[..Min(SUMMARY_LENGTH, |sorted|)] else sorted
  }

  /** Without the limit every transaction that passes the filters is shown;
      with it, the same holds as long as at most eight pass. */
  lemma VisibleComplete(ts: seq<Transaction>, tf: TypeFilter, cf: string, showLimit: bool, t: Transaction)
    requires t in ts && Passes(tf, cf)(t)
    requires showLimit ==> |Filtered(ts, tf, cf)| <= SUMMARY_LENGTH
    ensures t in VisibleTransactions(ts, tf, cf, showLimit)
  {
    var filtered := Filtered(ts, tf, cf);
    var sorted := SortNewestFirst(filtered);
    var i :| 0 <= i < |ts| && ts[i] == t;
    FilterMembers(ts, Passes(tf, cf));
    SortPermutes(filtered);
    assert t in multiset(filtered);
    assert t in multiset(sorted);
    if showLimit {
      assert sorted[..|sorted|] == sorted;
    }
  }

  /** The summary keeps the newest: a transaction that passes the filters
      but is left out is no newer than any shown one. */
  lemma LimitKeepsNewest(ts: seq<Transaction>, tf: TypeFilter, cf: string, t: Transaction, i: nat)
    requires t in Filtered(ts, tf, cf)
    requires t !in VisibleTransactions(ts, tf, cf, true)
    requires i < |VisibleTransactions(ts, tf, cf, true)|
    ensures OnOrBefore(t.date, VisibleTransactions(ts, tf, cf, true)[i].date)
  {
    var sorted := SortNewestFirst(Filtered(ts, tf, cf));
    var shown := VisibleTransactions(ts, tf, cf, true);
    SortPermutes(Filtered(ts, tf, cf));
    assert t in multiset(sorted);
    var j :| 0 <= j < |sorted| && sorted[j] == t;
    assert shown == sorted[..|shown|];
    assert shown[i] == sorted[i];
  }

  // ---------------------------------------------------------------- footer

  /** "Showing N of M transactions". */
  datatype Footer = Footer(showing: int, total: int)

  /** The footer is shown only for a summary of more than eight
      transactions; it counts what is shown against ALL transactions, not
      just those that pass the filters. */
  function ShowingFooter(ts: seq<Transaction>, shown: seq<Transaction>, showLimit: bool): (r: Option<Footer>)
    ensures r.Some? <==> showLimit && |ts| > SUMMARY_LENGTH
    ensures r.Some? ==> r.value.total == |ts|
    ensures r.Some? ==> r.value.showing <= SUMMARY_LENGTH
  {
    if showLimit && |ts| > SUMMARY_LENGTH then Some(Footer(Min(SUMMARY_LENGTH, |shown|), |ts|)) else None
  }

  /** For the list actually shown, the footer's N is its length, which is
      at most M. */
  lemma FooterCountsShown(ts: seq<Transaction>, tf: TypeFilter, cf: string)
    requires |ts| > SUMMARY_LENGTH
    ensures var shown := VisibleTransactions(ts, tf, cf, true);
      var f := ShowingFooter(ts, shown, true);
      f.Some? && f.value.showing == |shown| && f.value.showing <= f.value.total
  {
    var shown := VisibleTransactions(ts, tf, cf, true);
    assert |Filtered(ts, tf, cf)| <= |ts|;
    assert |shown| <= SUMMARY_LENGTH;
  }
}
