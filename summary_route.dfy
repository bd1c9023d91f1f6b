/// The `GET /api/summary` handler (src/app/api/summary/route.ts): the signed-in
/// user's income split into earned and borrowed money, their expenses, and the
/// net savings, optionally restricted to an inclusive date range.  The
/// authentication lookup and the two table queries are parameters: each
/// table is given whole (or as the error its query reported), and the
/// query's filters on owner and date pick the rows it returns.
module SummaryRoute {
  import opened Basics

  /** What `auth.getUser()` returned: the user's id, if any, and the lookup error, if any. */
  datatype Auth = Auth(user: Option<string>, error: Option<string>)

  /** A row of either table: owner, amount, date, and the columns only that table has. */
  datatype Row<C> = Row(userId: string, amount: int, date: int, kind: C)

  /** An income row; `kind` is its `type` column (`null` is `None`). */
  type IncomeRow = Row<Option<string>>

  /** An expense row, with no further column; the route filters it on a `date` column, as it does income. */
  type ExpenseRow = Row<()>

  /** A table as its query sees it: its rows (`None` when the query returns `null` data), or the query's error message. */
  datatype Query<R> = Rows(rows: Option<seq<R>>) | Failed(message: string)

  datatype Summary = Summary(totalIncome: int, totalBorrowed: int, totalExpenses: int, netSavings: int)

  datatype Response =
    | Unauthorized
    | ServerError(message: Option<string>)
    | Ok(summary: Summary)

  /** The HTTP status of a response. */
  function Status(r: Response): int
  {
    match r
    case Unauthorized => 401
    case ServerError(_) => 500
    case Ok(_) => 200
  }

  /** The `from`/`to` filters: an absent (or empty) bound does not restrict, a present one is inclusive. */
  predicate InRange(date: int, from: Option<int>, to: Option<int>)
  {
    (from.None? || date >= from.value) && (to.None? || date <= to.value)
  }

  /** The rows a query returns: the user's own (`eq("user_id", ...)`), within the range (`filters`), in table order. */
  function Select<C(!new)>(table: seq<Row<C>>, user: string, from: Option<int>, to: Option<int>): (r: seq<Row<C>>)
    ensures IsSubsequence(r, table)
    ensures forall row :: row in r <==> row in table && row.userId == user && InRange(row.date, from, to)
  {
    if table == [] then []
    else
      var init, last := table[..|table| - 1], table[|table| - 1];
      var r := Select(init, user, from, to);
      assert table == init + [last];
      if last.userId == user && InRange(last.date, from, to) then r + [last] else r
  }

  predicate IsBorrowed(row: IncomeRow)
  {
    row.kind == Some("borrowed")
  }

  function Amount<C>(row: Row<C>): int
  {
    row.amount
  }

  /** The amount of a row if it is borrowed money, else 0. */
  function BorrowedAmount(row: IncomeRow): int
  {
    if IsBorrowed(row) then row.amount else 0
  }

  /** The amount of a row if it is not borrowed money, else 0. */
  function EarnedAmount(row: IncomeRow): int
  {
    if IsBorrowed(row) then 0 else row.amount
  }

  /** `incomeError?.message || expenseError?.message` */
  function ErrorMessage(income: Query<IncomeRow>, expenses: Query<ExpenseRow>): Option<string>
  {
    if income.Failed? && income.message != "" then Some(income.message)
    else if expenses.Failed? then Some(expenses.message)
    else None
  }

  /** The figures for the rows the two queries returned. */
  function Totals(income: seq<IncomeRow>, expenses: seq<ExpenseRow>): (s: Summary)
    ensures s.netSavings == s.totalIncome + s.totalBorrowed - s.totalExpenses
  {
    var earned := SumBy(income, EarnedAmount);
    var borrowed := SumBy(income, BorrowedAmount);
    var spent := SumBy(expenses, Amount);
    Summary(earned, borrowed, spent, earned + borrowed - spent)
  }

  /** The response the handler sends for the user's rows within the range. */
  function Expected(auth: Auth, from: Option<int>, to: Option<int>, income: Query<IncomeRow>, expenses: Query<ExpenseRow>): Response
  {
    if auth.error.Some? || auth.user.None? then Unauthorized
    else if income.Failed? || expenses.Failed? then ServerError(ErrorMessage(income, expenses))
    else
      var user := auth.user.value;
      Ok(Totals(Select(OrEmpty(income.rows), user, from, to), Select(OrEmpty(expenses.rows), user, from, to)))
  }

  /**
   * `GET`: the 401 and 500 checks, then the `forEach` that adds each income
   * row to `totalBorrowed` or `totalIncome`, then the expense `reduce`.
   */
  method Get(auth: Auth, from: Option<int>, to: Option<int>, income: Query<IncomeRow>, expenses: Query<ExpenseRow>)
    returns (response: Response)
    ensures response == Expected(auth, from, to, income, expenses)
  {
    if auth.error.Some? || auth.user.None? {
      return Unauthorized;
    }
    if income.Failed? || expenses.Failed? {
      return ServerError(ErrorMessage(income, expenses));
    }
    var user := auth.user.value;
    var totalIncome, totalBorrowed := SplitIncome(Select(OrEmpty(income.rows), user, from, to));
    var totalExpenses := SumBy(Select(OrEmpty(expenses.rows), user, from, to), Amount);
    response := Ok(Summary(totalIncome, totalBorrowed, totalExpenses, totalIncome + totalBorrowed - totalExpenses));
  }

  /** The `forEach` over the income rows: each amount goes to `totalBorrowed` or to `totalIncome`. */
  method SplitIncome(rows: seq<IncomeRow>) returns (totalIncome: int, totalBorrowed: int)
    ensures totalIncome == SumBy(rows, EarnedAmount)
    ensures totalBorrowed == SumBy(rows, BorrowedAmount)
  {
    totalIncome, totalBorrowed := 0, 0;
    var k := 0;
    while k < |rows|
      invariant 0 <= k <= |rows|
      invariant totalIncome == SumBy(rows[..k], EarnedAmount)
      invariant totalBorrowed == SumBy(rows[..k], BorrowedAmount)
    {
      assert rows[..k + 1][..k] == rows[..k];
      if rows[k].kind == Some("borrowed") {
        totalBorrowed := totalBorrowed + rows[k].amount;
      } else {
        totalIncome := totalIncome + rows[k].amount;
      }
      k := k + 1;
    }
    assert rows[..k] == rows;
  }

  /** Earned and borrowed money partition the income: together they are every row's amount once. */
  lemma {:induction false} IncomePartition(rows: seq<IncomeRow>)
    ensures SumBy(rows, EarnedAmount) + SumBy(rows, BorrowedAmount) == SumBy(rows, Amount)
    decreases |rows|
  {
    if rows != [] {
      IncomePartition(rows[..|rows| - 1]);
    }
  }

  /** Net savings is everything that came in, borrowed or not, less everything spent. */
  lemma NetSavingsIsAllIncomeLessExpenses(income: seq<IncomeRow>, expenses: seq<ExpenseRow>)
    ensures Totals(income, expenses).netSavings == SumBy(income, Amount) - SumBy(expenses, Amount)
  {
    IncomePartition(income);
  }

  /** With no rows at all every figure is 0; `null` rows count as no rows. */
  lemma EmptyIsZero(auth: Auth, from: Option<int>, to: Option<int>)
    requires auth.error.None? && auth.user.Some?
    ensures Expected(auth, from, to, Rows(None), Rows(None)) == Ok(Summary(0, 0, 0, 0))
    ensures Expected(auth, from, to, Rows(Some([])), Rows(Some([]))) == Ok(Summary(0, 0, 0, 0))
  {
  }

  /** Rows whose `type` is not exactly "borrowed" (including `null`) count as earned income. */
  lemma OnlyBorrowedIsBorrowed(row: IncomeRow)
    ensures !IsBorrowed(row) ==> EarnedAmount(row) == row.amount && BorrowedAmount(row) == 0
    ensures IsBorrowed(row) ==> BorrowedAmount(row) == row.amount && EarnedAmount(row) == 0
  {
  }

  /** 401 whenever the lookup failed or found no user, whatever the tables hold: nothing is queried. */
  lemma UnauthorizedIgnoresTables(auth: Auth, from: Option<int>, to: Option<int>,
                                  i1: Query<IncomeRow>, e1: Query<ExpenseRow>, i2: Query<IncomeRow>, e2: Query<ExpenseRow>)
    requires auth.error.Some? || auth.user.None?
    ensures Expected(auth, from, to, i1, e1) == Expected(auth, from, to, i2, e2) == Unauthorized
    ensures Status(Expected(auth, from, to, i1, e1)) == 401
  {
  }

  /** A failed query gives a 500 carrying the income error's message if it has one, else the expense error's. */
  lemma FailurePrefersIncomeMessage(auth: Auth, from: Option<int>, to: Option<int>, income: Query<IncomeRow>, expenses: Query<ExpenseRow>)
    requires auth.error.None? && auth.user.Some?
    requires income.Failed? || expenses.Failed?
    ensures Status(Expected(auth, from, to, income, expenses)) == 500
    ensures income.Failed? && income.message != "" ==>
      Expected(auth, from, to, income, expenses) == ServerError(Some(income.message))
    ensures (income.Rows? || income.message == "") && expenses.Failed? ==>
      Expected(auth, from, to, income, expenses) == ServerError(Some(expenses.message))
    ensures income.Failed? && income.message == "" && expenses.Rows? ==>
      Expected(auth, from, to, income, expenses) == ServerError(None)
  {
  }

  /** With rows that are all non-negative, the range-restricted figures never exceed the unrestricted ones. */
  lemma RangeNarrowsTotals<C(!new)>(table: seq<Row<C>>, user: string, from: Option<int>, to: Option<int>)
    requires forall row :: row in table ==> row.amount >= 0
    ensures SumBy(Select(table, user, from, to), Amount) <= SumBy(Select(table, user, None, None), Amount)
  {
    var narrow, wide := Select(table, user, from, to), Select(table, user, None, None);
    assert forall row :: row in wide ==> row.amount >= 0;
    NarrowIsSubsequence(table, user, from, to);
    SumBySubsequence(narrow, wide, Amount);
  }

  /** The rows kept under a range are among those kept without one, in the same order. */
  lemma {:induction false} NarrowIsSubsequence<C(!new)>(table: seq<Row<C>>, user: string, from: Option<int>, to: Option<int>)
    ensures IsSubsequence(Select(table, user, from, to), Select(table, user, None, None))
    decreases |table|
  {
    if table != [] {
      var init, last := table[..|table| - 1], table[|table| - 1];
      NarrowIsSubsequence(init, user, from, to);
      var narrow, wide := Select(init, user, from, to), Select(init, user, None, None);
      if last.userId == user && InRange(last.date, from, to) {
        assert Select(table, user, from, to) == narrow + [last];
        assert Select(table, user, None, None) == wide + [last];
        SubsequenceSnoc(narrow, wide, last);
      } else if last.userId == user {
        assert Select(table, user, from, to) == narrow;
        assert Select(table, user, None, None) == wide + [last];
        SubsequenceOfLonger(narrow, wide, last);
      } else {
        assert Select(table, user, from, to) == narrow;
        assert Select(table, user, None, None) == wide;
      }
    }
  }

  /** A query over one row more keeps that row exactly when it is the user's and in range. */
  lemma SelectStep<C(!new)>(init: seq<Row<C>>, last: Row<C>, user: string, from: Option<int>, to: Option<int>)
    ensures Select(init + [last], user, from, to)
         == Select(init, user, from, to) + (if last.userId == user && InRange(last.date, from, to) then [last] else [])
  {
    var table := init + [last];
    assert table[..|table| - 1] == init;
  }

  /** A query returns each of the user's in-range rows as many times as the table holds it, and no other row. */
  lemma {:induction false} SelectCounts<C(!new)>(table: seq<Row<C>>, user: string, from: Option<int>, to: Option<int>)
    ensures forall x :: multiset(Select(table, user, from, to))[x]
                     == if x.userId == user && InRange(x.date, from, to) then multiset(table)[x] else 0
    decreases |table|
  {
    if table != [] {
      SelectCounts(table[..|table| - 1], user, from, to);
      SelectBagStep(table, user, from, to);
    }
  }

  /** One row more adds it to the table's bag, and to the query's bag exactly when it is kept. */
  lemma SelectBagStep<C(!new)>(table: seq<Row<C>>, user: string, from: Option<int>, to: Option<int>)
    requires table != []
    ensures var init, last := table[..|table| - 1], table[|table| - 1];
      multiset(table) == multiset(init) + multiset{last} &&
      multiset(Select(table, user, from, to))
        == multiset(Select(init, user, from, to))
           + (if last.userId == user && InRange(last.date, from, to) then multiset{last} else multiset{})
  {
    var init, last := table[..|table| - 1], table[|table| - 1];
    assert table == init + [last];
    SelectStep(init, last, user, from, to);
  }

  /** Of three income rows, the other user's and none outside 10..20 is dropped. */
  lemma ScenarioIncome()
    ensures Select([Row("u1", 2000, 10, Some("salary")), Row("u2", 90, 12, None), Row("u1", 500, 20, Some("borrowed"))],
                   "u1", Some(10), Some(20))
         == [Row("u1", 2000, 10, Some("salary")), Row("u1", 500, 20, Some("borrowed"))]
  {
    var a, b, c := Row("u1", 2000, 10, Some("salary")), Row("u2", 90, 12, None), Row("u1", 500, 20, Some("borrowed"));
    ScenarioOtherUser();
    SelectStep([a, b], c, "u1", Some(10), Some(20));
    assert [a, b] + [c] == [a, b, c];
  }

  /** The other user's row, though in range, is not returned. */
  lemma ScenarioOtherUser()
    ensures Select([Row("u1", 2000, 10, Some("salary")), Row("u2", 90, 12, None)], "u1", Some(10), Some(20))
         == [Row("u1", 2000, 10, Some("salary"))]
  {
    var a, b := Row("u1", 2000, 10, Some("salary")), Row("u2", 90, 12, None);
    assert "u2" != "u1" by {
      assert "u2"[1] != "u1"[1];
    }
    SelectStep([], a, "u1", Some(10), Some(20));
    assert [] + [a] == [a];
    SelectStep([a], b, "u1", Some(10), Some(20));
    assert [a] + [b] == [a, b];
  }

  /** Of two expense rows, the one dated after the range is dropped. */
  lemma ScenarioExpenses()
    ensures Select([Row("u1", 800, 15, ()), Row("u1", 70, 21, ())], "u1", Some(10), Some(20)) == [Row("u1", 800, 15, ())]
  {
    var x, y := Row("u1", 800, 15, ()), Row("u1", 70, 21, ());
    SelectStep([], x, "u1", Some(10), Some(20));
    assert [] + [x] == [x];
    SelectStep([x], y, "u1", Some(10), Some(20));
    assert [x] + [y] == [x, y];
  }

  /** 2000 earned and 500 borrowed in, 800 spent: 1700 saved. */
  lemma ScenarioTotals()
    ensures Totals([Row("u1", 2000, 10, Some("salary")), Row("u1", 500, 20, Some("borrowed"))], [Row("u1", 800, 15, ())])
         == Summary(2000, 500, 800, 1700)
  {
    var a, c := Row("u1", 2000, 10, Some("salary")), Row("u1", 500, 20, Some("borrowed"));
    assert [a, c][..1] == [a] && [a][..0] == [];
    assert Some("salary") != Some("borrowed") by {
      assert "salary"[0] != "borrowed"[0];
    }
    assert !IsBorrowed(a) && IsBorrowed(c);
    assert EarnedAmount(a) == 2000 && BorrowedAmount(a) == 0;
    assert EarnedAmount(c) == 0 && BorrowedAmount(c) == 500;
    assert SumBy([a], EarnedAmount) == SumBy([], EarnedAmount) + EarnedAmount(a) == 2000;
    assert SumBy([a], BorrowedAmount) == SumBy([], BorrowedAmount) + BorrowedAmount(a) == 0;
    assert SumBy([a, c], EarnedAmount) == 2000 && SumBy([a, c], BorrowedAmount) == 500;
    var x := Row("u1", 800, 15, ());
    assert [x][..0] == [];
    assert SumBy([x], Amount) == 800;
  }

  /** The whole request: another user's row and rows outside the range are not counted. */
  lemma Scenario(auth: Auth)
    requires auth.error.None? && auth.user == Some("u1")
    ensures Expected(auth, Some(10), Some(20),
      Rows(Some([Row("u1", 2000, 10, Some("salary")), Row("u2", 90, 12, None), Row("u1", 500, 20, Some("borrowed"))])),
      Rows(Some([Row("u1", 800, 15, ()), Row("u1", 70, 21, ())])))
      == Ok(Summary(2000, 500, 800, 1700))
  {
    var income := [Row("u1", 2000, 10, Some("salary")), Row("u2", 90, 12, None), Row("u1", 500, 20, Some("borrowed"))];
    var expenses := [Row("u1", 800, 15, ()), Row("u1", 70, 21, ())];
    ScenarioIncome();
    ScenarioExpenses();
    ScenarioTotals();
    assert Expected(auth, Some(10), Some(20), Rows(Some(income)), Rows(Some(expenses)))
        == Ok(Totals(Select(income, "u1", Some(10), Some(20)), Select(expenses, "u1", Some(10), Some(20))));
  }
}
