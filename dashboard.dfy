/// The figures of the overview tab of `RealtimeDashboard`
/// (src/components/RealtimeDashboard.tsx): all-time and current-month totals,
/// counts, the savings-rate and expense-ratio cells, the status cell and the
/// loading gate.  Times are millisecond timestamps; the month's first and
/// last instants are passed in.
module Dashboard {
  import opened Basics

  /** The columns of an expense row the dashboard reads: its view of the same `expenses` table that the charts and the terminal read. */
  datatype Expense = Expense(amount: int, createdAt: int)

  /** The columns of an income row the dashboard reads: its view of the same `income` table that the charts and the terminal read. */
  datatype Income = Income(amount: int, date: int)

  function ExpenseAmount(e: Expense): int
  {
    e.amount
  }

  function IncomeAmount(i: Income): int
  {
    i.amount
  }

  /** `expenses.filter(e => start <= created_at && created_at <= end)` */
  function ExpensesBetween(expenses: seq<Expense>, start: int, end: int): (r: seq<Expense>)
    ensures IsSubsequence(r, expenses)
    ensures forall e :: e in r <==> e in expenses && start <= e.createdAt <= end
  {
    if expenses == [] then []
    else
      var init, last := expenses[..|expenses| - 1], expenses[|expenses| - 1];
      var rest := ExpensesBetween(init, start, end);
      assert expenses == init + [last];
      if start <= last.createdAt <= end then
        assert (rest + [last])[..|rest|] == rest;
        rest + [last]
      else
        rest
  }

  /** `income.filter(i => start <= date && date <= end)` */
  function IncomeBetween(income: seq<Income>, start: int, end: int): (r: seq<Income>)
    ensures IsSubsequence(r, income)
    ensures forall i :: i in r <==> i in income && start <= i.date <= end
  {
    if income == [] then []
    else
      var init, last := income[..|income| - 1], income[|income| - 1];
      var rest := IncomeBetween(init, start, end);
      assert income == init + [last];
      if start <= last.date <= end then
        assert (rest + [last])[..|rest|] == rest;
        rest + [last]
      else
        rest
  }

  /** The monthly expenses hold each row of the month as many times as the full list does, and no other row. */
  lemma {:induction false} ExpensesBetweenCounts(expenses: seq<Expense>, start: int, end: int)
    ensures forall e :: multiset(ExpensesBetween(expenses, start, end))[e]
                     == if start <= e.createdAt <= end then multiset(expenses)[e] else 0
    decreases |expenses|
  {
    if expenses != [] {
      var init, last := expenses[..|expenses| - 1], expenses[|expenses| - 1];
      ExpensesBetweenCounts(init, start, end);
      assert expenses == init + [last];
      assert multiset(expenses) == multiset(init) + multiset{last};
      var rest := ExpensesBetween(init, start, end);
      assert multiset(rest + [last]) == multiset(rest) + multiset{last};
    }
  }

  /** The monthly income holds each row of the month as many times as the full list does, and no other row. */
  lemma {:induction false} IncomeBetweenCounts(income: seq<Income>, start: int, end: int)
    ensures forall i :: multiset(IncomeBetween(income, start, end))[i]
                     == if start <= i.date <= end then multiset(income)[i] else 0
    decreases |income|
  {
    if income != [] {
      var init, last := income[..|income| - 1], income[|income| - 1];
      IncomeBetweenCounts(init, start, end);
      assert income == init + [last];
      assert multiset(income) == multiset(init) + multiset{last};
      var rest := IncomeBetween(init, start, end);
      assert multiset(rest + [last]) == multiset(rest) + multiset{last};
    }
  }

  /** The `currentMonth` memo. */
  datatype MonthFigures = MonthFigures(expenses: seq<Expense>, income: seq<Income>, totalExpenses: int, totalIncome: int)

  function CurrentMonth(expenses: Option<seq<Expense>>, income: Option<seq<Income>>, start: int, end: int): MonthFigures
  {
    var monthlyExpenses := ExpensesBetween(OrEmpty(expenses), start, end);
    var monthlyIncome := IncomeBetween(OrEmpty(income), start, end);
    MonthFigures(monthlyExpenses, monthlyIncome, SumBy(monthlyExpenses, ExpenseAmount), SumBy(monthlyIncome, IncomeAmount))
  }

  /** The `summary` memo. */
  datatype Summary = Summary(
    totalIncome: int,
    totalExpenses: int,
    netSavings: int,
    monthlyIncome: int,
    monthlyExpenses: int,
    monthlySavings: int,
    expenseCount: nat,
    incomeCount: nat)

  function Summarize(expenses: Option<seq<Expense>>, income: Option<seq<Income>>, start: int, end: int): Summary
  {
    var month := CurrentMonth(expenses, income, start, end);
    var totalIncome := SumBy(OrEmpty(income), IncomeAmount);
    var totalExpenses := SumBy(OrEmpty(expenses), ExpenseAmount);
    Summary(
      totalIncome,
      totalExpenses,
      totalIncome - totalExpenses,
      month.totalIncome,
      month.totalExpenses,
      month.totalIncome - month.totalExpenses,
      |OrEmpty(expenses)|,
      |OrEmpty(income)|)
  }

  /** With no rows (or no lists at all) every figure is zero, net savings included. */
  lemma EmptySummary(start: int, end: int)
    ensures Summarize(None, None, start, end) == Summary(0, 0, 0, 0, 0, 0, 0, 0)
    ensures Summarize(Some([]), Some([]), start, end) == Summary(0, 0, 0, 0, 0, 0, 0, 0)
  {
  }

  /**
   * Every income row counts towards `totalIncome`, whatever it is: there is no
   * separate borrowed figure, and net savings grow by the row's amount.
   */
  lemma {:induction false} IncomeRowAddsToIncome(expenses: Option<seq<Expense>>, income: seq<Income>, row: Income, start: int, end: int)
    ensures Summarize(expenses, Some(income + [row]), start, end).totalIncome
         == Summarize(expenses, Some(income), start, end).totalIncome + row.amount
    ensures Summarize(expenses, Some(income + [row]), start, end).netSavings
         == Summarize(expenses, Some(income), start, end).netSavings + row.amount
    ensures Summarize(expenses, Some(income + [row]), start, end).incomeCount
         == Summarize(expenses, Some(income), start, end).incomeCount + 1
  {
    SumByAppend(income, [row], IncomeAmount);
    assert SumBy([row], IncomeAmount) == row.amount;
  }

  /**
   * Only `created_at` inside the month counts for the month: an expense dated
   * outside `[start, end]` moves the all-time figures and no monthly one.
   */
  lemma {:induction false} ExpenseOutsideMonth(expenses: seq<Expense>, income: Option<seq<Income>>, row: Expense, start: int, end: int)
    requires row.createdAt < start || end < row.createdAt
    ensures Summarize(Some(expenses + [row]), income, start, end).monthlyExpenses
         == Summarize(Some(expenses), income, start, end).monthlyExpenses
    ensures Summarize(Some(expenses + [row]), income, start, end).monthlySavings
         == Summarize(Some(expenses), income, start, end).monthlySavings
    ensures Summarize(Some(expenses + [row]), income, start, end).totalExpenses
         == Summarize(Some(expenses), income, start, end).totalExpenses + row.amount
  {
    var all := expenses + [row];
    assert all[..|all| - 1] == expenses;
    SumByAppend(expenses, [row], ExpenseAmount);
    assert SumBy([row], ExpenseAmount) == row.amount;
  }

  /** An expense dated inside the month counts for the month as well as for all time. */
  lemma {:induction false} ExpenseInsideMonth(expenses: seq<Expense>, income: Option<seq<Income>>, row: Expense, start: int, end: int)
    requires start <= row.createdAt <= end
    ensures Summarize(Some(expenses + [row]), income, start, end).monthlyExpenses
         == Summarize(Some(expenses), income, start, end).monthlyExpenses + row.amount
    ensures Summarize(Some(expenses + [row]), income, start, end).totalExpenses
         == Summarize(Some(expenses), income, start, end).totalExpenses + row.amount
  {
    var all := expenses + [row];
    assert all[..|all| - 1] == expenses;
    SumByAppend(expenses, [row], ExpenseAmount);
    assert SumBy([row], ExpenseAmount) == row.amount;
  }

  /** Income dated outside the month moves the all-time figures and no monthly one. */
  lemma {:induction false} IncomeOutsideMonth(expenses: Option<seq<Expense>>, income: seq<Income>, row: Income, start: int, end: int)
    requires row.date < start || end < row.date
    ensures Summarize(expenses, Some(income + [row]), start, end).monthlyIncome
         == Summarize(expenses, Some(income), start, end).monthlyIncome
    ensures Summarize(expenses, Some(income + [row]), start, end).monthlySavings
         == Summarize(expenses, Some(income), start, end).monthlySavings
    ensures Summarize(expenses, Some(income + [row]), start, end).totalIncome
         == Summarize(expenses, Some(income), start, end).totalIncome + row.amount
  {
    var all := income + [row];
    assert all[..|all| - 1] == income;
    SumByAppend(income, [row], IncomeAmount);
    assert SumBy([row], IncomeAmount) == row.amount;
  }

  /** Income dated inside the month counts for the month, and for its savings, as well as for all time. */
  lemma {:induction false} IncomeInsideMonth(expenses: Option<seq<Expense>>, income: seq<Income>, row: Income, start: int, end: int)
    requires start <= row.date <= end
    ensures Summarize(expenses, Some(income + [row]), start, end).monthlyIncome
         == Summarize(expenses, Some(income), start, end).monthlyIncome + row.amount
    ensures Summarize(expenses, Some(income + [row]), start, end).monthlySavings
         == Summarize(expenses, Some(income), start, end).monthlySavings + row.amount
    ensures Summarize(expenses, Some(income + [row]), start, end).totalIncome
         == Summarize(expenses, Some(income), start, end).totalIncome + row.amount
  {
    var all := income + [row];
    assert all[..|all| - 1] == income;
    var month := IncomeBetween(income, start, end);
    assert IncomeBetween(all, start, end) == month + [row];
    SumByAppend(income, [row], IncomeAmount);
    SumByAppend(month, [row], IncomeAmount);
    assert SumBy([row], IncomeAmount) == row.amount;
  }

  /** The monthly lists are sub-lists of the full ones, so with non-negative amounts no monthly total exceeds its all-time total. */
  lemma MonthWithinAllTime(expenses: Option<seq<Expense>>, income: Option<seq<Income>>, start: int, end: int)
    requires forall e :: e in OrEmpty(expenses) ==> e.amount >= 0
    requires forall i :: i in OrEmpty(income) ==> i.amount >= 0
    ensures 0 <= Summarize(expenses, income, start, end).monthlyExpenses <= Summarize(expenses, income, start, end).totalExpenses
    ensures 0 <= Summarize(expenses, income, start, end).monthlyIncome <= Summarize(expenses, income, start, end).totalIncome
  {
    var es, ins := OrEmpty(expenses), OrEmpty(income);
    var me, mi := ExpensesBetween(es, start, end), IncomeBetween(ins, start, end);
    SumBySubsequence(me, es, ExpenseAmount);
    SumBySubsequence(mi, ins, IncomeAmount);
    SumByNonNegative(me, ExpenseAmount);
    SumByNonNegative(mi, IncomeAmount);
  }

  // ---------------------------------------------------------------------
  // The "Financial Health" cells.
  // ---------------------------------------------------------------------

  /** A percentage cell: "N/A", or the exact quotient the cell rounds to one decimal. */
  datatype Rate = NotApplicable | Percent(value: real)

  /** The colour class of a cell. */
  datatype Tone = Green | Yellow | Red | Gray

  lemma PercentAgainstThreshold(num: int, den: int, threshold: int)
    requires den > 0
    ensures (num as real / den as real) * 100.0 >= threshold as real <==> 100 * num >= threshold * den
    ensures (num as real / den as real) * 100.0 <= threshold as real <==> 100 * num <= threshold * den
  {
    var q := num as real / den as real;
    assert q * den as real == num as real;
    if q * 100.0 >= threshold as real {
      assert q * 100.0 * den as real >= threshold as real * den as real;
    }
    if 100 * num >= threshold * den {
      assert q * 100.0 * den as real >= threshold as real * den as real;
    }
    if q * 100.0 <= threshold as real {
      assert q * 100.0 * den as real <= threshold as real * den as real;
    }
    if 100 * num <= threshold * den {
      assert q * 100.0 * den as real <= threshold as real * den as real;
    }
  }

  /** Savings rate: net savings as a percentage of total income, "N/A" unless income is positive. */
  function SavingsRate(s: Summary): (r: Rate)
    ensures r.NotApplicable? <==> s.totalIncome <= 0
    ensures r.Percent? ==> r.value * (s.totalIncome as real) == (s.netSavings as real) * 100.0
  {
    if s.totalIncome > 0 then Percent((s.netSavings as real / s.totalIncome as real) * 100.0) else NotApplicable
  }

  /** Expense ratio: total expenses as a percentage of total income, "N/A" unless income is positive. */
  function ExpenseRatio(s: Summary): (r: Rate)
    ensures r.NotApplicable? <==> s.totalIncome <= 0
    ensures r.Percent? ==> r.value * (s.totalIncome as real) == (s.totalExpenses as real) * 100.0
  {
    if s.totalIncome > 0 then Percent((s.totalExpenses as real / s.totalIncome as real) * 100.0) else NotApplicable
  }

  /** Savings-rate colour: green from 20% up, yellow below, grey without positive income. */
  function SavingsTone(s: Summary): (t: Tone)
    ensures t == Gray <==> s.totalIncome <= 0
    ensures t == Green <==> s.totalIncome > 0 && 100 * s.netSavings >= 20 * s.totalIncome
    ensures t == Yellow <==> s.totalIncome > 0 && 100 * s.netSavings < 20 * s.totalIncome
    ensures t != Red
  {
    if s.totalIncome > 0 then
      PercentAgainstThreshold(s.netSavings, s.totalIncome, 20);
      if (s.netSavings as real / s.totalIncome as real) * 100.0 >= 20.0 then Green else Yellow
    else Gray
  }

  /** Expense-ratio colour: green up to 80%, red above, grey without positive income. */
  function ExpenseTone(s: Summary): (t: Tone)
    ensures t == Gray <==> s.totalIncome <= 0
    ensures t == Green <==> s.totalIncome > 0 && 100 * s.totalExpenses <= 80 * s.totalIncome
    ensures t == Red <==> s.totalIncome > 0 && 100 * s.totalExpenses > 80 * s.totalIncome
    ensures t != Yellow
  {
    if s.totalIncome > 0 then
      PercentAgainstThreshold(s.totalExpenses, s.totalIncome, 80);
      if (s.totalExpenses as real / s.totalIncome as real) * 100.0 <= 80.0 then Green else Red
    else Gray
  }

  /** The status cell. */
  function Status(s: Summary): (text: string)
    ensures text == "Positive" || text == "Negative"
    ensures text == "Positive" <==> s.netSavings >= 0
  {
    if s.netSavings >= 0 then "Positive" else "Negative"
  }

  /** What the component renders: the pulsing skeleton, or the tabs over the summary. */
  datatype Screen = Skeleton | Overview(summary: Summary, savingsRate: Rate, expenseRatio: Rate, status: string)

  function Render(expensesLoading: bool, incomeLoading: bool, expenses: Option<seq<Expense>>, income: Option<seq<Income>>, start: int, end: int): (v: Screen)
    ensures v.Skeleton? <==> expensesLoading || incomeLoading
    ensures v.Overview? ==> v.summary == Summarize(expenses, income, start, end)
    ensures v.Overview? ==> v.savingsRate == SavingsRate(v.summary) && v.expenseRatio == ExpenseRatio(v.summary)
    ensures v.Overview? ==> v.savingsRate.NotApplicable? == v.expenseRatio.NotApplicable?
    ensures v.Overview? ==> (v.status == "Positive" <==> v.summary.netSavings >= 0)
  {
    if expensesLoading || incomeLoading then Skeleton
    else
      var s := Summarize(expenses, income, start, end);
      Overview(s, SavingsRate(s), ExpenseRatio(s), Status(s))
  }
}
