/// The derived data of `IncomeChart` (src/components/charts/IncomeChart.tsx):
/// the 12-month bar series, the top-8 source breakdown, the total and
/// monthly-average cards, and the recent-income table.  An income `date` is a
/// calendar date and months are numbered `year * 12 + month - 1`, so that
/// consecutive months have consecutive numbers; the current date is passed in.
module IncomeChart {
  import opened Basics
  import Series
  import Tally

  datatype CalendarDate = CalendarDate(year: int, month: int, day: int)

  /** The columns of an income row the chart reads (this component's view of the `income` table the dashboard also reads); a null or empty source is `None` or `Some("")`. */
  datatype Income = Income(id: string, amount: int, source: Option<string>, description: Option<string>, date: CalendarDate)

  /** Months in the bar chart's trailing window. */
  const WindowMonths: nat := 12

  /** Sources kept by the breakdown. */
  const TopSources: nat := 8

  /** Rows shown by the recent-income table. */
  const RecentRows: nat := 10

  /** The year-month a date falls in, the `YYYY-MM` prefix the buckets are matched on. */
  function MonthKey(d: CalendarDate): int
  {
    d.year * 12 + d.month - 1
  }

  function IncomeAmount(i: Income): int
  {
    i.amount
  }

  /** Each income item reduced to its month and amount, in input order. */
  function MonthEntries(income: seq<Income>): (r: seq<Series.Entry>)
    ensures |r| == |income|
  {
    seq(|income|, i requires 0 <= i < |income| => Series.Entry(MonthKey(income[i].date), income[i].amount))
  }

  /** The bar chart's data: nothing for no income, else the 12 months up to the current one. */
  function MonthlySeries(income: seq<Income>, today: CalendarDate): seq<Series.Bucket>
  {
    if |income| == 0 then [] else Series.Window(MonthEntries(income), MonthKey(today) - (WindowMonths - 1), WindowMonths)
  }

  /** The `monthlyData` memo: zeroed month buckets, then one `amount +=` per item that falls in one. */
  method MonthlyData(income: seq<Income>, today: CalendarDate) returns (series: seq<Series.Bucket>)
    ensures series == MonthlySeries(income, today)
  {
    if |income| == 0 {
      return [];
    }
    var first := MonthKey(today) - (WindowMonths - 1);
    var buckets := new Series.Bucket[WindowMonths](i => Series.Bucket(first + i, 0));
    assert buckets[..] == Series.Window([], first, WindowMonths) by {
      Series.EmptyWindowIsZero(first, WindowMonths);
    }
    Series.Accumulate(buckets, MonthEntries(income), first);
    series := buckets[..];
  }

  /**
   * No income gives no series; otherwise there is one bucket per month from
   * eleven months back to the current month, ascending, each holding the sum
   * of the amounts dated in that month.
   */
  lemma MonthlySeriesShape(income: seq<Income>, today: CalendarDate)
    ensures |income| == 0 ==> MonthlySeries(income, today) == []
    ensures |income| > 0 ==> |MonthlySeries(income, today)| == WindowMonths
    ensures |income| > 0 ==> forall i :: 0 <= i < WindowMonths ==>
      MonthlySeries(income, today)[i] == Series.Bucket(MonthKey(today) - 11 + i, Series.KeyTotal(MonthEntries(income), MonthKey(today) - 11 + i))
  {
  }

  /** Items from the same year-month land in the same bucket whatever their day. */
  lemma SameMonthSameBucket(a: CalendarDate, b: CalendarDate)
    requires a.year == b.year && a.month == b.month
    ensures MonthKey(a) == MonthKey(b)
  {
  }

  /** An item dated outside the twelve months changes no bucket. */
  lemma OutsideYearIgnored(income: seq<Income>, item: Income, today: CalendarDate)
    requires |income| > 0
    requires MonthKey(item.date) < MonthKey(today) - 11 || MonthKey(today) < MonthKey(item.date)
    ensures MonthlySeries(income + [item], today) == MonthlySeries(income, today)
  {
    var e := Series.Entry(MonthKey(item.date), item.amount);
    assert MonthEntries(income + [item]) == MonthEntries(income) + [e];
    Series.OutsideEntryIgnored(MonthEntries(income), e, MonthKey(today) - 11, WindowMonths);
  }

  /** The twelve bars add up to the amounts of exactly the items dated within the twelve months. */
  lemma SeriesIsYearTotal(income: seq<Income>, today: CalendarDate)
    requires |income| > 0
    ensures SumBy(MonthlySeries(income, today), Series.BucketAmount)
         == Series.RangeTotal(MonthEntries(income), MonthKey(today) - 11, MonthKey(today) + 1)
  {
    Series.WindowTotal(MonthEntries(income), MonthKey(today) - 11, WindowMonths);
  }

  // ---------------------------------------------------------------------
  // The source breakdown.
  // ---------------------------------------------------------------------

  /** `incomeItem.source || 'Other'` */
  function SourceOf(i: Income): string
  {
    if i.source.Some? && i.source.value != "" then i.source.value else "Other"
  }

  function SourceItems(income: seq<Income>): (r: seq<Tally.Item>)
    ensures |r| == |income|
  {
    seq(|income|, i requires 0 <= i < |income| => Tally.Item(SourceOf(income[i]), income[i].amount))
  }

  ghost predicate NonIncreasing(s: seq<Tally.Total>)
  {
    forall i, j :: 0 <= i < j < |s| ==> s[i].amount >= s[j].amount
  }

  ghost predicate KeyAbsent(s: seq<Tally.Total>, key: string)
  {
    forall u :: u in s ==> u.key != key
  }

  /** Places `t` before the first entry whose amount it is at least. */
  function InsertByAmount(t: Tally.Total, s: seq<Tally.Total>): (r: seq<Tally.Total>)
    ensures multiset(r) == multiset(s) + multiset{t}
    ensures forall u :: u in r <==> u in s || u == t
  {
    if s == [] then [t]
    else if t.amount >= s[0].amount then [t] + s
    else
      assert s == [s[0]] + s[1..];
      [s[0]] + InsertByAmount(t, s[1..])
  }

  /** `.sort((a, b) => b.amount - a.amount)`: the same entries, rearranged (ordered by `SortedByAmount`). */
  function SortByAmount(s: seq<Tally.Total>): (r: seq<Tally.Total>)
    ensures multiset(r) == multiset(s)
    ensures forall u :: u in r <==> u in s
  {
    if s == [] then []
    else
      assert s == [s[0]] + s[1..];
      InsertByAmount(s[0], SortByAmount(s[1..]))
  }

  lemma TailNonIncreasing(s: seq<Tally.Total>)
    requires s != [] && NonIncreasing(s)
    ensures NonIncreasing(s[1..])
  {
    forall i, j | 0 <= i < j < |s[1..]|
      ensures s[1..][i].amount >= s[1..][j].amount
    {
      assert s[1..][i] == s[i + 1] && s[1..][j] == s[j + 1];
    }
  }

  lemma TailDistinct(s: seq<Tally.Total>)
    requires s != [] && Tally.DistinctKeys(s)
    ensures Tally.DistinctKeys(s[1..])
    ensures KeyAbsent(s[1..], s[0].key)
  {
    forall i, j | 0 <= i < j < |s[1..]|
      ensures s[1..][i].key != s[1..][j].key
    {
      assert s[1..][i] == s[i + 1] && s[1..][j] == s[j + 1];
    }
    forall u | u in s[1..]
      ensures u.key != s[0].key
    {
      var k :| 0 <= k < |s[1..]| && s[1..][k] == u;
      assert s[k + 1] == u;
    }
  }

  /** Inserting into a list ordered by amount keeps it ordered. */
  lemma {:induction false} InsertKeepsOrder(t: Tally.Total, s: seq<Tally.Total>)
    requires NonIncreasing(s)
    ensures NonIncreasing(InsertByAmount(t, s))
    decreases |s|
  {
    var r := InsertByAmount(t, s);
    if s == [] {
    } else if t.amount >= s[0].amount {
      forall i, j | 0 <= i < j < |r|
        ensures r[i].amount >= r[j].amount
      {
        if i == 0 {
          assert r[j] == s[j - 1];
          assert s[0].amount >= s[j - 1].amount || j == 1;
        } else {
          assert r[i] == s[i - 1] && r[j] == s[j - 1];
        }
      }
    } else {
      var rest := InsertByAmount(t, s[1..]);
      TailNonIncreasing(s);
      InsertKeepsOrder(t, s[1..]);
      forall i, j | 0 <= i < j < |r|
        ensures r[i].amount >= r[j].amount
      {
        if i == 0 {
          var u := rest[j - 1];
          assert r[j] == u;
          assert u in rest;
          if u != t {
            var k :| 0 <= k < |s[1..]| && s[1..][k] == u;
            assert s[k + 1] == u;
          }
        } else {
          assert r[i] == rest[i - 1] && r[j] == rest[j - 1];
        }
      }
    }
  }

  /** Putting an entry with a new key in front of a list with distinct keys keeps the keys distinct. */
  lemma ConsDistinct(x: Tally.Total, s: seq<Tally.Total>)
    requires Tally.DistinctKeys(s) && KeyAbsent(s, x.key)
    ensures Tally.DistinctKeys([x] + s)
  {
    var r := [x] + s;
    forall i, j | 0 <= i < j < |r|
      ensures r[i].key != r[j].key
    {
      assert r[j] == s[j - 1];
      if i == 0 {
        assert s[j - 1] in s;
      } else {
        assert r[i] == s[i - 1];
      }
    }
  }

  /** Inserting an entry whose key is new into a list with distinct keys keeps the keys distinct. */
  lemma {:induction false} InsertKeepsDistinct(t: Tally.Total, s: seq<Tally.Total>)
    requires Tally.DistinctKeys(s) && KeyAbsent(s, t.key)
    ensures Tally.DistinctKeys(InsertByAmount(t, s))
    decreases |s|
  {
    if s == [] {
    } else if t.amount >= s[0].amount {
      ConsDistinct(t, s);
    } else {
      TailDistinct(s);
      assert s[0] in s;
      assert KeyAbsent(s[1..], t.key) by {
        forall u | u in s[1..]
          ensures u.key != t.key
        {
          assert u in s;
        }
      }
      InsertKeepsDistinct(t, s[1..]);
      var rest := InsertByAmount(t, s[1..]);
      assert KeyAbsent(rest, s[0].key);
      ConsDistinct(s[0], rest);
    }
  }

  /** The sorted list has non-increasing amounts, and distinct keys stay distinct. */
  lemma {:induction false} SortedByAmount(s: seq<Tally.Total>)
    ensures NonIncreasing(SortByAmount(s))
    ensures Tally.DistinctKeys(s) ==> Tally.DistinctKeys(SortByAmount(s))
    decreases |s|
  {
    if s != [] {
      SortedByAmount(s[1..]);
      InsertKeepsOrder(s[0], SortByAmount(s[1..]));
      if Tally.DistinctKeys(s) {
        TailDistinct(s);
        InsertKeepsDistinct(s[0], SortByAmount(s[1..]));
      }
    }
  }

  /** What the breakdown shows for these items before truncation: every source's total, largest first. */
  function RankedSources(income: seq<Income>): seq<Tally.Total>
  {
    SortByAmount(Tally.Totals(SourceItems(income)))
  }

  /**
   * The `sourceData` memo: the per-source totals, sorted by amount, the first
   * eight kept.  Each kept source is distinct and carries the sum of its
   * items, the list is non-increasing, and every source left out has a total
   * no larger than any source kept.
   */
  method SourceData(income: seq<Income>) returns (top: seq<Tally.Total>)
    ensures |income| == 0 ==> top == []
    ensures |income| > 0 ==> top == Take(RankedSources(income), TopSources)
    ensures |top| <= TopSources
    ensures NonIncreasing(top)
    ensures forall i, j :: 0 <= i < j < |top| ==> top[i].key != top[j].key
    ensures forall t :: t in top ==> t.amount == Tally.SumFor(SourceItems(income), t.key)
    ensures forall t :: t in Tally.Totals(SourceItems(income)) && t !in top ==>
      forall k :: k in top ==> t.amount <= k.amount
  {
    if |income| == 0 {
      return [];
    }
    var totals := Tally.Accumulate(SourceItems(income));
    var ranked := SortByAmount(totals);
    top := Take(ranked, TopSources);
    TopIsRankedPrefix(income);
  }

  lemma TopIsRankedPrefix(income: seq<Income>)
    ensures var totals := Tally.Totals(SourceItems(income));
      var ranked := SortByAmount(totals);
      var top := Take(ranked, TopSources);
      NonIncreasing(top) &&
      (forall i, j :: 0 <= i < j < |top| ==> top[i].key != top[j].key) &&
      (forall t :: t in top ==> t.amount == Tally.SumFor(SourceItems(income), t.key)) &&
      (forall t :: t in totals && t !in top ==> forall k :: k in top ==> t.amount <= k.amount)
  {
    var totals := Tally.Totals(SourceItems(income));
    var ranked := SortByAmount(totals);
    Tally.TotalsAreSums(SourceItems(income));
    SortedByAmount(totals);
    PrefixOfRanked(ranked, TopSources);
  }

  /** The first `n` entries of a list ordered by amount: still ordered, and none left out is larger. */
  lemma PrefixOfRanked(ranked: seq<Tally.Total>, n: nat)
    requires NonIncreasing(ranked)
    ensures var top := Take(ranked, n);
      NonIncreasing(top) &&
      (Tally.DistinctKeys(ranked) ==> Tally.DistinctKeys(top)) &&
      (forall t :: t in top ==> t in ranked) &&
      (forall t :: t in ranked && t !in top ==> forall k :: k in top ==> t.amount <= k.amount)
  {
    var top := Take(ranked, n);
    forall t | t in top
      ensures t in ranked
    {
      var i :| 0 <= i < |top| && top[i] == t;
      assert ranked[i] in ranked;
    }
    forall t, k | t in ranked && t !in top && k in top
      ensures t.amount <= k.amount
    {
      var j :| 0 <= j < |ranked| && ranked[j] == t;
      var i :| 0 <= i < |top| && top[i] == k;
    }
  }

  /** A missing or empty source is counted under "Other". */
  lemma MissingSourceIsOther(i: Income)
    requires i.source == None || i.source == Some("")
    ensures SourceOf(i) == "Other"
  {
  }

  /** Before truncation the ranked sources add up to the total income. */
  lemma {:induction false} RankedSumsToTotal(income: seq<Income>)
    ensures SumBy(RankedSources(income), Tally.TotalAmount) == TotalIncome(Some(income))
  {
    var totals := Tally.Totals(SourceItems(income));
    Tally.TotalsKeepGrandTotal(SourceItems(income));
    SameAmounts(income);
    SumByPermutation(SortByAmount(totals), totals, Tally.TotalAmount);
  }

  lemma {:induction false} SameAmounts(income: seq<Income>)
    ensures SumBy(SourceItems(income), Tally.ItemAmount) == SumBy(income, IncomeAmount)
    decreases |income|
  {
    if income != [] {
      var init := income[..|income| - 1];
      assert SourceItems(income)[..|income| - 1] == SourceItems(init);
      SameAmounts(init);
    }
  }

  // ---------------------------------------------------------------------
  // The summary cards and the recent table.
  // ---------------------------------------------------------------------

  /** The "Total Income" card: `income?.reduce(...) || 0`. */
  function TotalIncome(income: Option<seq<Income>>): int
  {
    if income.Some? then SumBy(income.value, IncomeAmount) else 0
  }

  predicate IsPositive(b: Series.Bucket)
  {
    b.amount > 0
  }

  /** `monthlyData.filter(month => month.amount > 0)`. */
  function PositiveMonths(series: seq<Series.Bucket>): (r: seq<Series.Bucket>)
    ensures IsSubsequence(r, series)
    ensures forall b :: b in r <==> b in series && b.amount > 0
  {
    if series == [] then []
    else
      var init, last := series[..|series| - 1], series[|series| - 1];
      var r := PositiveMonths(init);
      assert series == init + [last];
      if last.amount > 0 then r + [last] else r
  }

  /** `sum / count`, exactly. */
  function Mean(total: int, count: int): (r: real)
    requires count > 0
    ensures r * count as real == total as real
    ensures total > 0 ==> r > 0.0
  {
    total as real / count as real
  }

  /**
   * The "Avg Monthly" card: 0 when no month has a positive amount, otherwise
   * the mean over those months only, which is then positive.
   */
  function AverageMonthly(series: seq<Series.Bucket>): (r: real)
    ensures PositiveMonths(series) == [] ==> r == 0.0
    ensures PositiveMonths(series) != [] ==> r > 0.0
    ensures PositiveMonths(series) != [] ==>
      r == Mean(SumBy(PositiveMonths(series), Series.BucketAmount), |PositiveMonths(series)|)
  {
    var months := PositiveMonths(series);
    if |months| == 0 then 0.0
    else
      var total := SumBy(months, Series.BucketAmount);
      PositiveSum(months);
      Mean(total, |months|)
  }

  /** A non-empty run of positive months has a positive sum. */
  lemma {:induction false} PositiveSum(months: seq<Series.Bucket>)
    requires months != []
    requires forall b :: b in months ==> b.amount > 0
    ensures SumBy(months, Series.BucketAmount) > 0
  {
    var init := months[..|months| - 1];
    assert forall b :: b in init ==> b in months;
    SumByNonNegative(init, Series.BucketAmount);
    assert months[|months| - 1] in months;
  }

  /** The recent table: `income?.slice(0, 10)`, in the order the rows came. */
  function RecentIncome(income: Option<seq<Income>>): (rows: seq<Income>)
    ensures income.None? ==> rows == []
    ensures income.Some? ==> |rows| == Min(RecentRows, |income.value|)
    ensures income.Some? ==> forall i :: 0 <= i < |rows| ==> rows[i] == income.value[i]
  {
    if income.Some? then Take(income.value, RecentRows) else []
  }
}
