/// The derived data of `ExpenseChart` (src/components/charts/ExpenseChart.tsx):
/// the 30-day line series, the per-category pie slices, the total and
/// "This Month" cards, and the recent-expenses table.  `created_at` is a
/// millisecond timestamp and its day is the whole number of days since the
/// epoch; the current instant `now` is passed in.
module ExpenseChart {
  import opened Basics
  import Series
  import Tally

  /** The columns of an expense row the chart reads (this component's view of the `expenses` table the dashboard also reads); a null or empty category is `None` or `Some("")`. */
  datatype Expense = Expense(id: string, title: string, amount: int, category: Option<string>, createdAt: int)

  const DayLength: int := 86400000

  /** Days in the line chart's trailing window. */
  const WindowDays: nat := 30

  /** Rows shown by the recent-expenses table. */
  const RecentRows: nat := 10

  const Colors: seq<string> := ["#0088FE", "#00C49F", "#FFBB28", "#FF8042", "#8884D8", "#82CA9D"]

  /** `startOfDay`, as a day number. */
  function DayOf(t: int): int
  {
    t / DayLength
  }

  function ExpenseAmount(e: Expense): int
  {
    e.amount
  }

  /** Each expense reduced to its day and amount, in input order. */
  function DayEntries(expenses: seq<Expense>): (r: seq<Series.Entry>)
    ensures |r| == |expenses|
  {
    seq(|expenses|, i requires 0 <= i < |expenses| => Series.Entry(DayOf(expenses[i].createdAt), expenses[i].amount))
  }

  /** The line chart's data: nothing for no expenses, else the 30 days up to today's. */
  function DailySeries(expenses: seq<Expense>, now: int): seq<Series.Bucket>
  {
    if |expenses| == 0 then [] else Series.Window(DayEntries(expenses), DayOf(now) - (WindowDays - 1), WindowDays)
  }

  /** The `lineChartData` memo: zeroed day buckets, then one `amount +=` per expense that falls on one. */
  method LineChartData(expenses: seq<Expense>, now: int) returns (series: seq<Series.Bucket>)
    ensures series == DailySeries(expenses, now)
  {
    if |expenses| == 0 {
      return [];
    }
    var first := DayOf(now) - (WindowDays - 1);
    var buckets := new Series.Bucket[WindowDays](i => Series.Bucket(first + i, 0));
    assert buckets[..] == Series.Window([], first, WindowDays) by {
      Series.EmptyWindowIsZero(first, WindowDays);
    }
    Series.Accumulate(buckets, DayEntries(expenses), first);
    series := buckets[..];
  }

  /**
   * For any expenses the series is empty; otherwise it has one bucket per day
   * from 29 days ago to today, ascending, each holding the sum of that day's
   * amounts.
   */
  lemma DailySeriesShape(expenses: seq<Expense>, now: int)
    ensures |expenses| == 0 ==> DailySeries(expenses, now) == []
    ensures |expenses| > 0 ==> |DailySeries(expenses, now)| == WindowDays
    ensures |expenses| > 0 ==> forall i :: 0 <= i < WindowDays ==>
      DailySeries(expenses, now)[i] == Series.Bucket(DayOf(now) - 29 + i, Series.KeyTotal(DayEntries(expenses), DayOf(now) - 29 + i))
  {
  }

  /** An expense dated outside the 30 days changes no bucket. */
  lemma {:induction false} OutsideWindowIgnored(expenses: seq<Expense>, e: Expense, now: int)
    requires |expenses| > 0
    requires DayOf(e.createdAt) < DayOf(now) - 29 || DayOf(now) < DayOf(e.createdAt)
    ensures DailySeries(expenses + [e], now) == DailySeries(expenses, now)
  {
    var entries := DayEntries(expenses + [e]);
    assert entries == DayEntries(expenses) + [Series.Entry(DayOf(e.createdAt), e.amount)];
    Series.OutsideEntryIgnored(DayEntries(expenses), Series.Entry(DayOf(e.createdAt), e.amount), DayOf(now) - 29, WindowDays);
  }

  /** The "This Month" card: the amounts of the last 30 buckets of the series, added up. */
  function ThisMonth(series: seq<Series.Bucket>): int
  {
    SumBy(if |series| <= WindowDays then series else series[|series| - WindowDays..], Series.BucketAmount)
  }

  /** "This Month" is the sum of the amounts of exactly the expenses dated within the last 30 days. */
  lemma ThisMonthIsWindowTotal(expenses: seq<Expense>, now: int)
    requires |expenses| > 0
    ensures ThisMonth(DailySeries(expenses, now))
         == Series.RangeTotal(DayEntries(expenses), DayOf(now) - 29, DayOf(now) + 1)
  {
    Series.WindowTotal(DayEntries(expenses), DayOf(now) - 29, WindowDays);
  }

  /** With no expenses at all, "This Month" shows 0. */
  lemma ThisMonthEmpty(now: int)
    ensures ThisMonth(DailySeries([], now)) == 0
  {
  }

  // ---------------------------------------------------------------------
  // The category pie.
  // ---------------------------------------------------------------------

  /** `expense.category || "Other"` */
  function CategoryOf(e: Expense): string
  {
    if e.category.Some? && e.category.value != "" then e.category.value else "Other"
  }

  function CategoryItems(expenses: seq<Expense>): (r: seq<Tally.Item>)
    ensures |r| == |expenses|
  {
    seq(|expenses|, i requires 0 <= i < |expenses| => Tally.Item(CategoryOf(expenses[i]), expenses[i].amount))
  }

  /** One pie slice: the category, its summed amount, and its colour. */
  datatype Slice = Slice(name: string, value: int, color: string)

  /** The `pieChartData` memo: category totals in first-seen order, coloured round-robin. */
  method PieChartData(expenses: seq<Expense>) returns (slices: seq<Slice>)
    ensures |expenses| == 0 ==> slices == []
    ensures |expenses| > 0 ==> |slices| == |Tally.Totals(CategoryItems(expenses))|
    ensures forall i :: 0 <= i < |slices| ==>
      slices[i].name == Tally.Totals(CategoryItems(expenses))[i].key &&
      slices[i].value == Tally.Totals(CategoryItems(expenses))[i].amount
    ensures forall i :: 0 <= i < |slices| ==> slices[i].color == Colors[i % 6]
  {
    if |expenses| == 0 {
      return [];
    }
    var totals := Tally.Accumulate(CategoryItems(expenses));
    slices := seq(|totals|, i requires 0 <= i < |totals| => Slice(totals[i].key, totals[i].amount, Colors[i % |Colors|]));
  }

  /** A missing or empty category is counted under "Other". */
  lemma MissingCategoryIsOther(e: Expense)
    requires e.category == None || e.category == Some("")
    ensures CategoryOf(e) == "Other"
  {
  }

  /**
   * Each category occurs once among the totals, exactly the categories of the
   * expenses occur, each total is the sum of that category's amounts, and the
   * totals add up to the sum of all amounts.
   */
  lemma CategoryBreakdown(expenses: seq<Expense>)
    ensures Tally.DistinctKeys(Tally.Totals(CategoryItems(expenses)))
    ensures forall t :: t in Tally.Totals(CategoryItems(expenses)) ==>
      t.amount == Tally.SumFor(CategoryItems(expenses), t.key)
    ensures forall c :: Tally.HasKey(Tally.Totals(CategoryItems(expenses)), c) <==>
      exists e :: e in expenses && CategoryOf(e) == c
    ensures SumBy(Tally.Totals(CategoryItems(expenses)), Tally.TotalAmount) == TotalExpenses(Some(expenses))
  {
    var items := CategoryItems(expenses);
    Tally.TotalsAreSums(items);
    Tally.TotalsKeepGrandTotal(items);
    forall c
      ensures Tally.Mentions(items, c) <==> exists e :: e in expenses && CategoryOf(e) == c
    {
      if Tally.Mentions(items, c) {
        var it :| it in items && it.key == c;
        var i :| 0 <= i < |items| && items[i] == it;
        assert expenses[i] in expenses;
      }
      if exists e :: e in expenses && CategoryOf(e) == c {
        var e :| e in expenses && CategoryOf(e) == c;
        var i :| 0 <= i < |expenses| && expenses[i] == e;
        assert items[i] in items;
      }
    }
    SameAmounts(expenses);
  }

  lemma {:induction false} SameAmounts(expenses: seq<Expense>)
    ensures SumBy(CategoryItems(expenses), Tally.ItemAmount) == SumBy(expenses, ExpenseAmount)
    decreases |expenses|
  {
    if expenses != [] {
      var init := expenses[..|expenses| - 1];
      assert CategoryItems(expenses)[..|expenses| - 1] == CategoryItems(init);
      SameAmounts(init);
    }
  }

  /** The "Total Expenses" card: `expenses?.reduce(...) || 0`. */
  function TotalExpenses(expenses: Option<seq<Expense>>): int
  {
    if expenses.Some? then SumBy(expenses.value, ExpenseAmount) else 0
  }

  // ---------------------------------------------------------------------
  // The recent-expenses table.
  // ---------------------------------------------------------------------

  ghost predicate NewestFirst(s: seq<Expense>)
  {
    forall i, j :: 0 <= i < j < |s| ==> s[i].createdAt >= s[j].createdAt
  }

  /** Positions `0 .. hi - 1` of `s` are newest first. */
  ghost predicate NewestFirstUpTo(s: seq<Expense>, hi: int)
    requires 0 <= hi <= |s|
  {
    forall p, q :: 0 <= p < q < hi ==> s[p].createdAt >= s[q].createdAt
  }

  /** Positions `0 .. hi - 1` other than `j` are newest first, and the row at `j` is strictly newer than those after it. */
  ghost predicate Inserting(s: seq<Expense>, j: int, hi: int)
    requires 0 <= j < hi <= |s|
  {
    (forall p, q :: 0 <= p < q < hi && p != j && q != j ==> s[p].createdAt >= s[q].createdAt) &&
    (forall q :: j < q < hi ==> s[j].createdAt > s[q].createdAt)
  }

  /** Swapping the row at `j` with the strictly older row before it moves the insertion point one step forward. */
  lemma SwapKeepsInserting(s: seq<Expense>, j: int, hi: int)
    requires 0 < j < hi <= |s|
    requires Inserting(s, j, hi)
    requires s[j - 1].createdAt < s[j].createdAt
    ensures Inserting(s[j - 1 := s[j]][j := s[j - 1]], j - 1, hi)
  {
  }

  /** Swapping two neighbours at or before `i` keeps the rows, and those after `i`. */
  lemma SwapKeepsRest(s: seq<Expense>, j: int, i: int)
    requires 0 < j <= i < |s|
    ensures multiset(s[j - 1 := s[j]][j := s[j - 1]]) == multiset(s)
    ensures s[j - 1 := s[j]][j := s[j - 1]][i + 1..] == s[i + 1..]
  {
  }

  /** Once the row before the insertion point is not older, positions `0 .. hi - 1` are newest first. */
  lemma InsertedIsSorted(s: seq<Expense>, j: int, hi: int)
    requires 0 <= j < hi <= |s|
    requires Inserting(s, j, hi)
    requires j == 0 || s[j - 1].createdAt >= s[j].createdAt
    ensures NewestFirstUpTo(s, hi)
  {
    forall p, q | 0 <= p < q < hi
      ensures s[p].createdAt >= s[q].createdAt
    {
      if q == j && p < j - 1 {
        assert s[p].createdAt >= s[j - 1].createdAt;
      }
    }
  }

  /** One pass of the insertion sort: the row at `i` moves forward past the strictly older rows before it. */
  method InsertNewest(a: array<Expense>, i: int)
    requires 0 <= i < a.Length
    requires NewestFirstUpTo(a[..], i)
    modifies a
    ensures NewestFirstUpTo(a[..], i + 1)
    ensures a[i + 1..] == old(a[i + 1..])
    ensures multiset(a[..]) == old(multiset(a[..]))
  {
    var j := i;
    while j > 0 && a[j - 1].createdAt < a[j].createdAt
      invariant 0 <= j <= i
      invariant Inserting(a[..], j, i + 1)
      invariant a[i + 1..] == old(a[i + 1..])
      invariant multiset(a[..]) == old(multiset(a[..]))
    {
      ghost var s := a[..];
      a[j - 1], a[j] := a[j], a[j - 1];
      assert a[..] == s[j - 1 := s[j]][j := s[j - 1]];
      SwapKeepsInserting(s, j, i + 1);
      SwapKeepsRest(s, j, i);
      j := j - 1;
    }
    InsertedIsSorted(a[..], j, i + 1);
  }

  /**
   * `expenses.sort((a, b) => b.created_at - a.created_at)`, in place on the
   * array the chart was given: an insertion sort that moves a row forward only
   * past strictly older rows.
   */
  method SortNewestFirst(a: array<Expense>)
    modifies a
    ensures NewestFirst(a[..])
    ensures multiset(a[..]) == old(multiset(a[..]))
  {
    var i := 0;
    while i < a.Length
      invariant 0 <= i <= a.Length
      invariant NewestFirstUpTo(a[..], i)
      invariant multiset(a[..]) == old(multiset(a[..]))
    {
      InsertNewest(a, i);
      i := i + 1;
    }
  }

  /** The table: the array sorted in place, newest first, then its first ten rows. */
  method RecentExpenses(a: array<Expense>) returns (rows: seq<Expense>)
    modifies a
    ensures multiset(a[..]) == old(multiset(a[..]))
    ensures NewestFirst(a[..])
    ensures rows == Take(a[..], RecentRows)
    ensures forall i, j :: 0 <= i < |rows| && |rows| <= j < a.Length ==> rows[i].createdAt >= a[j].createdAt
  {
    SortNewestFirst(a);
    rows := Take(a[..], RecentRows);
  }
}
