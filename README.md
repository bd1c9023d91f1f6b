# Finance dashboard: a verified model of its data logic

The finance dashboard is a Next.js application over a Supabase store.
Users record income and expenses; the dashboard mirrors both tables live,
summarises them, charts them, offers a small command terminal, and serves a
JSON summary from `GET /api/summary`. This project models the sequential logic
inside it. The store, the clock and the UI are passed in as parameters or left
out.

- `basics.dfy` (`Basics`): `Option`, the left fold `SumBy` that every `reduce`
  over amounts becomes, the sub-list relation and `Take` (`slice(0, n)`).
- `realtime_data.dfy` (`RealtimeData`): the live collection of
  `useRealtimeData`. The change-event reducer is a pure function. It is proved
  to act on the rows keyed by `id` as a dictionary update would. The hook's
  `data`/`loading`/`error` slots form the class `LiveCollection`. The user
  lookup that `useExpenses`/`useIncome` put in front of it forms the class
  `OwnedCollection`.
- `dashboard.dfy` (`Dashboard`): the `currentMonth` and `summary` memos of
  `RealtimeDashboard`, the savings-rate, expense-ratio and status cells, and
  the loading gate.
- `series.dfy` (`Series`): the trailing window of zeroed buckets that both
  charts build and then update in place, one record at a time, on an `array`.
- `tally.dfy` (`Tally`): the `acc[key] = (acc[key] || 0) + amount` accumulator
  behind both breakdowns, in first-seen key order.
- `expense_chart.dfy` (`ExpenseChart`): the 30-day line series, the category
  pie with its colours, the total and "This Month" cards, and the in-place
  newest-first sort of the recent-expenses table.
- `income_chart.dfy` (`IncomeChart`): the 12-month series, the top-8 source
  ranking, the total and average cards, and the recent-income slice.
- `terminal.dfy` (`Terminal`): the tokeniser (`trim().split(" ")`), command
  dispatch, each command's reply, and the `Console` class holding `logs` and
  `command`.
- `summary_route.dfy` (`SummaryRoute`): the `GET` handler. It covers the
  401/500 outcomes, the inclusive date filter, the earned/borrowed split of
  income and net savings.

Behaviour of the code worth noting (the model follows the code):

- The dashboard has no borrowed split. Net savings is all income less all
  expenses (`src/components/RealtimeDashboard.tsx:83`). Only the API route
  splits income, and it splits on the `type` column.
- Both charts return an empty series and an empty breakdown for empty input,
  not a zero-filled one.
- A failed initial fetch sets `error` and leaves `data` as it was. A
  successful one leaves a previous `error` in place.
- DELETE removes every row with the given `id`, and INSERT never
  de-duplicates.
- The terminal splits on single spaces, so two spaces in a row make an empty
  word (`add  income 5` is an unknown command). It ignores query errors on
  `show`/`balance`, printing an empty report or a zero balance instead.
- The dashboard's month filter reads `created_at` for expenses and `date` for
  income. The API route filters both tables on `date`.

## Model

| member | source | states |
|---|---|---|
| RealtimeData.ReplaceById | src/hooks/useRealtimeData.ts:76-79 | UPDATE keeps length and order; each row with the event's `id` becomes the new row, every other row is unchanged |
| RealtimeData.RemoveById | src/hooks/useRealtimeData.ts:80-81 | DELETE keeps exactly the rows whose `id` differs, as a sub-list in the original order |
| RealtimeData.RemoveCount | src/hooks/useRealtimeData.ts:80-81 | DELETE shortens the list by the number of rows carrying the `id`; an absent `id` leaves the list identical |
| RealtimeData.DeleteAbsentIsNoOp | src/hooks/useRealtimeData.ts:80-81 | a DELETE for an id no row carries returns the list unchanged |
| RealtimeData.InsertAppends | src/hooks/useRealtimeData.ts:74-75 | INSERT appends the new row at the end: length +1, prefix unchanged, one more row with that id |
| RealtimeData.InsertTwiceKeepsBoth | src/hooks/useRealtimeData.ts:74-75 | repeating an INSERT leaves two copies; nothing is de-duplicated |
| RealtimeData.ReplaceMirrorsTable | src/hooks/useRealtimeData.ts:76-79 | viewed as a dictionary keyed by `id`, UPDATE overwrites the key if present and adds nothing otherwise |
| RealtimeData.RemoveMirrorsTable | src/hooks/useRealtimeData.ts:80-81 | viewed as a dictionary keyed by `id`, DELETE removes exactly that key |
| RealtimeData.RemoveKeepsUnique | src/hooks/useRealtimeData.ts:80-81 | DELETE keeps the ids of the list distinct |
| RealtimeData.InsertMirrorsTable | src/hooks/useRealtimeData.ts:74-75 | an INSERT of a fresh id keeps ids distinct and adds exactly that key to the dictionary |
| RealtimeData.ApplyEvent | src/hooks/useRealtimeData.ts:72-85 | the reducer for one notification; its contract is carried by InsertAppends, ReplaceById, RemoveById and ApplyEventMirrorsTable |
| RealtimeData.ApplyEventMirrorsTable | src/hooks/useRealtimeData.ts:72-85 | for every list and every event (a re-delivered INSERT included; an unrecognised type changes nothing) the reducer acts on the list as the dictionary update acts on the table keyed by `id` |
| RealtimeData.ApplyEventKeepsUnique | src/hooks/useRealtimeData.ts:72-85 | with distinct ids, an UPDATE, a DELETE, an unrecognised event or an INSERT of a fresh id keeps them distinct |
| RealtimeData.ApplyAll | src/hooks/useRealtimeData.ts:69-85 | notifications folded into the list in delivery order; ReplayMirrorsTable and ReplayKeepsUnique carry its contract |
| RealtimeData.ReplayMirrorsTable | src/hooks/useRealtimeData.ts:69-85 | any run of events folded into the list gives the same dictionary as folding them into the table |
| RealtimeData.ReplayKeepsUnique | src/hooks/useRealtimeData.ts:69-85 | a run of events whose every INSERT brings a new id keeps the ids distinct |
| RealtimeData.LiveCollection.constructor | src/hooks/useRealtimeData.ts:25-27 | starts with `data = []`, `loading`, no error, no channel, no fetch |
| RealtimeData.LiveCollection.Activate | src/hooks/useRealtimeData.ts:29-30 | disabled: nothing changes, so `loading` stays true; enabled: loading, fetch pending, channel subscribed, data and error untouched |
| RealtimeData.LiveCollection.Settle | src/hooks/useRealtimeData.ts:40-55 | success sets `data` to the rows (`[]` for null); a query error or a throw ("Unknown error" for a non-Error) sets `error` and leaves `data`; `loading` ends false |
| RealtimeData.LiveCollection.Receive | src/hooks/useRealtimeData.ts:69-85 | while subscribed, `data` becomes the reducer applied to the old `data`; after cleanup it is unchanged |
| RealtimeData.LiveCollection.Deactivate | src/hooks/useRealtimeData.ts:90-92 | the cleanup unsubscribes the channel |
| RealtimeData.OwnedCollection.constructor | src/hooks/useRealtimeData.ts:99-101 | no user yet, lookup pending, collection in its initial state |
| RealtimeData.OwnedCollection.ResolveUser | src/hooks/useRealtimeData.ts:103-124 | the lookup's result becomes the user; the collection is enabled, and its fetch and channel start, exactly when a user was found; still reported loading |
| RealtimeData.OwnedCollection.FetchSettled | src/hooks/useRealtimeData.ts:126-129 | the collection settles as `Settle` says (data, error, loading off, no fetch pending, channel as it was); reported loading is `result.loading || userLoading`, so it is now the lookup's flag alone |
| Dashboard.ExpensesBetween | src/components/RealtimeDashboard.tsx:52-56 | the monthly expenses are exactly those with `start <= created_at <= end`, as a sub-list |
| Dashboard.ExpensesBetweenCounts | src/components/RealtimeDashboard.tsx:52-56 | each expense of the month is kept as many times as the list holds it, and no other expense is kept |
| Dashboard.IncomeBetween | src/components/RealtimeDashboard.tsx:58-62 | the monthly income is exactly the rows with `start <= date <= end`, as a sub-list |
| Dashboard.IncomeBetweenCounts | src/components/RealtimeDashboard.tsx:58-62 | each income row of the month is kept as many times as the list holds it, and no other row is kept |
| Dashboard.CurrentMonth | src/components/RealtimeDashboard.tsx:46-75 | the `currentMonth` memo; ExpensesBetween, IncomeBetween, their Counts lemmas and the in/outside-month lemmas carry its contract |
| Dashboard.Summarize | src/components/RealtimeDashboard.tsx:77-95 | the `summary` memo; EmptySummary, IncomeRowAddsToIncome, the in/outside-month lemmas and MonthWithinAllTime carry its contract |
| Dashboard.EmptySummary | src/components/RealtimeDashboard.tsx:78-95 | absent or empty lists give all-zero totals, savings and counts |
| Dashboard.IncomeRowAddsToIncome | src/components/RealtimeDashboard.tsx:79-93 | any income row, borrowed or not, adds its amount to `totalIncome` and `netSavings` and one to `incomeCount` |
| Dashboard.ExpenseOutsideMonth | src/components/RealtimeDashboard.tsx:52-91 | an expense created outside the month changes the all-time total only, not the monthly expenses or savings |
| Dashboard.ExpenseInsideMonth | src/components/RealtimeDashboard.tsx:52-91 | an expense created inside the month adds its amount to both the monthly and the all-time totals |
| Dashboard.IncomeOutsideMonth | src/components/RealtimeDashboard.tsx:58-91 | income dated outside the month changes the all-time total only, not the monthly income or savings |
| Dashboard.IncomeInsideMonth | src/components/RealtimeDashboard.tsx:58-91 | income dated inside the month adds its amount to the monthly income, the monthly savings and the all-time total |
| Dashboard.MonthWithinAllTime | src/components/RealtimeDashboard.tsx:52-82 | with non-negative amounts each monthly total lies between 0 and its all-time total |
| Dashboard.PercentAgainstThreshold | src/components/RealtimeDashboard.tsx:294-320 | comparing the percentage `num / den * 100` with a threshold is the integer comparison `100 * num` against `threshold * den` |
| Dashboard.SavingsRate | src/components/RealtimeDashboard.tsx:302-307 | "N/A" exactly when total income is not positive; otherwise the percentage whose product with income is `netSavings * 100` |
| Dashboard.ExpenseRatio | src/components/RealtimeDashboard.tsx:322-327 | "N/A" exactly when total income is not positive; otherwise the percentage whose product with income is `totalExpenses * 100` |
| Dashboard.SavingsTone | src/components/RealtimeDashboard.tsx:294-300 | grey iff no positive income; green iff the savings rate is at least 20%; yellow iff below; never red |
| Dashboard.ExpenseTone | src/components/RealtimeDashboard.tsx:313-320 | grey iff no positive income; green iff the expense ratio is at most 80%; red iff above; never yellow |
| Dashboard.Status | src/components/RealtimeDashboard.tsx:334-339 | "Positive" iff net savings is non-negative, else "Negative" |
| Dashboard.Render | src/components/RealtimeDashboard.tsx:101 | the skeleton shows iff either list is loading; otherwise the overview shows the `summary` memo of the lists with its savings-rate and expense-ratio cells, both "N/A" together, and a status that agrees with net savings |
| Series.EmptyWindowIsZero | src/components/charts/ExpenseChart.tsx:54-61 | the fresh window has one bucket per consecutive key, ascending, each at 0 |
| Series.WindowTotal | src/components/charts/ExpenseChart.tsx:131-134 | the buckets of a window add up to the amounts of exactly the records whose key lies in the window |
| Series.OutsideEntryIgnored | src/components/charts/ExpenseChart.tsx:64-72 | a record whose key is outside the window changes no bucket |
| Series.FindBucket | src/components/charts/ExpenseChart.tsx:68 | `find` returns the first bucket with the key, or none when no bucket has it |
| Series.Accumulate | src/components/charts/ExpenseChart.tsx:64-72 | after the in-place `amount +=` pass, each bucket holds the total of the records on its key |
| Tally.IndexOf | src/components/charts/ExpenseChart.tsx:84 | the accumulator's lookup: the position of the key, with no earlier entry for it, or the length when absent |
| Tally.UnmentionedIsZero | src/components/charts/ExpenseChart.tsx:84 | a key no record carries has sum 0 (`acc[key] || 0`) |
| Tally.AddToKnownKey | src/components/charts/ExpenseChart.tsx:84 | adding under a present key keeps the accumulator an exact per-key sum |
| Tally.AddNewKey | src/components/charts/ExpenseChart.tsx:84 | adding under a new key keeps the accumulator an exact per-key sum |
| Tally.TotalsAreSums | src/components/charts/ExpenseChart.tsx:82-86 | each key occurs once, exactly the keys of the records occur, and each carries the sum of its records |
| Tally.TotalsKeepGrandTotal | src/components/charts/ExpenseChart.tsx:82-86 | the per-key totals add up to the sum of all records |
| Tally.Totals | src/components/charts/ExpenseChart.tsx:82-86 | the accumulator's result in first-seen key order; TotalsAreSums and TotalsKeepGrandTotal carry its contract |
| Tally.Accumulate | src/components/charts/ExpenseChart.tsx:82-86 | the `reduce` that updates the object in place yields the per-key totals |
| ExpenseChart.DailySeries | src/components/charts/ExpenseChart.tsx:48-76 | the 30-day series; DailySeriesShape, OutsideWindowIgnored and LineChartData carry its contract |
| ExpenseChart.LineChartData | src/components/charts/ExpenseChart.tsx:48-76 | builds the zeroed 30-day buckets and updates them in place, ending with the daily series |
| ExpenseChart.DailySeriesShape | src/components/charts/ExpenseChart.tsx:49-61 | no expenses: `[]`; otherwise 30 ascending buckets for today−29 … today, each holding that day's total |
| ExpenseChart.OutsideWindowIgnored | src/components/charts/ExpenseChart.tsx:64-72 | an expense dated outside the 30 days changes nothing |
| ExpenseChart.ThisMonth | src/components/charts/ExpenseChart.tsx:131-134 | the "This Month" card; ThisMonthIsWindowTotal and ThisMonthEmpty carry its contract |
| ExpenseChart.TotalExpenses | src/components/charts/ExpenseChart.tsx:96-100 | the "Total Expenses" card; CategoryBreakdown ties it to the category totals |
| ExpenseChart.ThisMonthIsWindowTotal | src/components/charts/ExpenseChart.tsx:131-134 | "This Month" equals the sum of the amounts of exactly the expenses dated within the last 30 days |
| ExpenseChart.ThisMonthEmpty | src/components/charts/ExpenseChart.tsx:131-134 | with no expenses "This Month" is 0 |
| ExpenseChart.PieChartData | src/components/charts/ExpenseChart.tsx:79-93 | no expenses: `[]`; otherwise one slice per category total in first-seen order, the i-th coloured `COLORS[i mod 6]` |
| ExpenseChart.MissingCategoryIsOther | src/components/charts/ExpenseChart.tsx:83 | a null or empty category counts as "Other" |
| ExpenseChart.CategoryBreakdown | src/components/charts/ExpenseChart.tsx:82-100 | each category appears once, exactly the expenses' categories appear, each with its summed amount, and the slices add up to the "Total Expenses" figure |
| ExpenseChart.InsertNewest | src/components/charts/ExpenseChart.tsx:276-280 | one insertion step extends the newest-first prefix by one, permuting the array and leaving the rest alone |
| ExpenseChart.SortNewestFirst | src/components/charts/ExpenseChart.tsx:275-280 | the in-place sort leaves the array ordered by descending `created_at` and a permutation of what it was |
| ExpenseChart.RecentExpenses | src/components/charts/ExpenseChart.tsx:275-281 | sorts the array in place, newest first, and shows its first min(10, n) rows, none older than a row left out |
| IncomeChart.MonthlySeries | src/components/charts/IncomeChart.tsx:32-56 | the 12-month series; MonthlySeriesShape, OutsideYearIgnored, SeriesIsYearTotal and MonthlyData carry its contract |
| IncomeChart.MonthlyData | src/components/charts/IncomeChart.tsx:32-56 | builds the zeroed 12-month buckets and updates them in place, ending with the monthly series |
| IncomeChart.MonthlySeriesShape | src/components/charts/IncomeChart.tsx:33-42 | no income: `[]`; otherwise 12 ascending buckets for this month−11 … this month, each holding that month's total |
| IncomeChart.SameMonthSameBucket | src/components/charts/IncomeChart.tsx:46-48 | dates in the same year and month go to the same bucket |
| IncomeChart.OutsideYearIgnored | src/components/charts/IncomeChart.tsx:45-53 | an item dated outside the 12 months changes nothing |
| IncomeChart.SeriesIsYearTotal | src/components/charts/IncomeChart.tsx:45-53 | the buckets add up to the amounts of exactly the items within the 12 months |
| IncomeChart.InsertByAmount | src/components/charts/IncomeChart.tsx:70 | one insertion step of the sort adds exactly the one entry |
| IncomeChart.SortByAmount | src/components/charts/IncomeChart.tsx:70 | the sort is a permutation of its input |
| IncomeChart.InsertKeepsOrder | src/components/charts/IncomeChart.tsx:70 | inserting into a non-increasing list keeps it non-increasing |
| IncomeChart.InsertKeepsDistinct | src/components/charts/IncomeChart.tsx:70 | inserting a new source keeps the sources distinct |
| IncomeChart.SortedByAmount | src/components/charts/IncomeChart.tsx:70 | the sorted list is non-increasing by amount and keeps distinct sources distinct |
| IncomeChart.SourceData | src/components/charts/IncomeChart.tsx:59-72 | no income: `[]`; otherwise at most 8 distinct sources, non-increasing, each with its summed amount, none left out larger than one kept |
| IncomeChart.TopIsRankedPrefix | src/components/charts/IncomeChart.tsx:62-71 | the first eight of the ranked totals are ordered, distinct and exact sums, and dominate every source left out |
| IncomeChart.PrefixOfRanked | src/components/charts/IncomeChart.tsx:71 | a prefix of a ranked list is ranked, distinct if the list is, and no entry left out exceeds one kept |
| IncomeChart.MissingSourceIsOther | src/components/charts/IncomeChart.tsx:63 | a null or empty source counts as "Other" |
| IncomeChart.RankedSumsToTotal | src/components/charts/IncomeChart.tsx:62-77 | before truncation the ranked source totals add up to the "Total Income" figure |
| IncomeChart.TotalIncome | src/components/charts/IncomeChart.tsx:75-77 | the "Total Income" card; RankedSumsToTotal ties it to the source totals |
| IncomeChart.PositiveMonths | src/components/charts/IncomeChart.tsx:81 | the months with data are exactly the buckets with a positive amount, in order |
| IncomeChart.Mean | src/components/charts/IncomeChart.tsx:83 | the exact quotient: times the count it gives the sum, and it is positive for a positive sum |
| IncomeChart.PositiveSum | src/components/charts/IncomeChart.tsx:81-83 | a non-empty run of positive months has a positive sum |
| IncomeChart.AverageMonthly | src/components/charts/IncomeChart.tsx:80-84 | 0 when no month is positive; otherwise the mean over the positive months only, which is positive |
| IncomeChart.RecentIncome | src/components/charts/IncomeChart.tsx:211 | the first min(10, n) items in input order, none for absent input |
| Terminal.TrimStart | src/components/Terminal.tsx:18 | drops exactly the leading whitespace: what remains is a suffix that starts with non-space |
| Terminal.TrimEnd | src/components/Terminal.tsx:18 | drops exactly the trailing whitespace: what remains is a prefix that ends with non-space |
| Terminal.Trim | src/components/Terminal.tsx:18 | empty iff the input is all whitespace; otherwise starts and ends with non-space |
| Terminal.TrimKeepsTrimmed | src/components/Terminal.tsx:18 | a string with no whitespace at either end is its own trim |
| Terminal.TrimIdempotent | src/components/Terminal.tsx:18 | trimming twice is trimming once |
| Terminal.Split | src/components/Terminal.tsx:18 | `split(" ")` yields at least one word, and no word contains a space |
| Terminal.JoinSplit | src/components/Terminal.tsx:18 | re-joining the words with single spaces gives back the input |
| Terminal.SplitJoin | src/components/Terminal.tsx:18 | splitting words joined with single spaces gives back the words |
| Terminal.SplitNoSpace | src/components/Terminal.tsx:18 | a string with no space is one word |
| Terminal.SplitAfterWord | src/components/Terminal.tsx:18 | a word followed by a space splits off as the first word |
| Terminal.LowerIdempotent | src/components/Terminal.tsx:19 | lower-casing twice is lower-casing once |
| Terminal.FirstWordCaseInsensitive | src/components/Terminal.tsx:19-143 | dispatch depends on the first word only through its lower-case form |
| Terminal.Dispatch | src/components/Terminal.tsx:19-143 | the `if`/`else if` chain; FirstWordCaseInsensitive, EmptySecondWordIsUnknown and the default lemmas carry its contract |
| Terminal.Parse | src/components/Terminal.tsx:18-19 | trim, split, dispatch; ParseWords carries its contract |
| Terminal.ParseWords | src/components/Terminal.tsx:18-19 | a line made of space-free words, non-blank at both ends, dispatches on exactly those words |
| Terminal.HelpInCapitals | src/components/Terminal.tsx:18-21 | "HELP" followed by a tab is the help command |
| Terminal.SecondWordIsExact | src/components/Terminal.tsx:32 | "add Income 5" is unknown: the second word is not lower-cased |
| Terminal.DoubleSpaceSplit | src/components/Terminal.tsx:18 | "add  income 5" splits into four words, the second empty |
| Terminal.DoubleSpaceTrimmed | src/components/Terminal.tsx:18 | trimming leaves the inner double space in place |
| Terminal.DoubleSpaceIsUnknown | src/components/Terminal.tsx:18-143 | "add  income 5" is therefore an unknown command |
| Terminal.EmptySecondWordIsUnknown | src/components/Terminal.tsx:32-143 | an empty second word makes any command other than help or clear unknown |
| Terminal.AddIncomeDefault | src/components/Terminal.tsx:41 | for every word list, `add income` with no source words (or only empty ones) uses "other" and keeps the third word as the amount |
| Terminal.AddExpenseDefaults | src/components/Terminal.tsx:60-61 | for every word list, `add expense` with no or an empty category uses "general", and with no title words (or only empty ones) "Terminal expense" |
| Terminal.AddExpenseLongTitle | src/components/Terminal.tsx:61 | for every word list, the words from the fifth on are re-joined with single spaces into the title, when that is not empty |
| Terminal.TeamLunchTitle | src/components/Terminal.tsx:61 | the title words "Team" and "lunch" become the title "Team lunch" |
| Terminal.SessionWords | src/components/Terminal.tsx:51-61 | the words add, expense, 250, Food, Lunch dispatch to an expense of 250 under Food titled Lunch |
| Terminal.SessionParse | src/components/Terminal.tsx:18-61 | the line "add expense 250 Food Lunch" parses to that same command |
| Terminal.NatToString | src/components/Terminal.tsx:95 | a number's decimal text is a non-empty digit string without a leading zero |
| Terminal.NatToStringReadsBack | src/components/Terminal.tsx:95 | the decimal text of a natural number reads back as that number |
| Terminal.IntToStringReadsBack | src/components/Terminal.tsx:95 | a non-negative balance prints as its digits; a negative one as "-" and the digits of its magnitude |
| Terminal.Answer | src/components/Terminal.tsx:21-143 | the branch taken for a command; HelpAppendsSeven, ClearResets, UnknownQuotes, SignedOutShortCircuits and SignedInCallsStore carry its contract |
| Terminal.Perform | src/components/Terminal.tsx:40-139 | a signed-in user's add or show command; AddOutcome, BalanceIsDifference, ShowIncomeLimit and ShowExpensesLimit carry its contract |
| Terminal.Respond | src/components/Terminal.tsx:17-145 | `handleCommand` as the reply it produces; Console.HandleCommand applies it to the log |
| Terminal.HelpAppendsSeven | src/components/Terminal.tsx:21-31 | help appends exactly the seven help lines and calls no store |
| Terminal.ClearResets | src/components/Terminal.tsx:140-141 | clear replaces the whole log with the single "Terminal cleared" line |
| Terminal.UnknownQuotes | src/components/Terminal.tsx:142-143 | an unknown command appends one line quoting the raw command, and calls no store |
| Terminal.SignedOutShortCircuits | src/components/Terminal.tsx:34-38 | an add or show command with no user appends exactly "❌ Not authenticated" and calls no store |
| Terminal.SignedInCallsStore | src/components/Terminal.tsx:40-139 | with a user, an add or show command makes one store call for that user and appends at least one line |
| Terminal.AddOutcome | src/components/Terminal.tsx:40-70 | a signed-in add inserts one row with the defaults applied and appends the insert's error or the confirmation |
| Terminal.BalanceIsDifference | src/components/Terminal.tsx:88-95 | the balance line shows income sum minus expense sum, absent rows counting 0 |
| Terminal.IncomeReportShape | src/components/Terminal.tsx:111-120 | the income report is a heading and then one line per row, at most five |
| Terminal.ShowIncomeLimit | src/components/Terminal.tsx:105-120 | `show income` prints the heading and at most five rows in the store's order |
| Terminal.ExpenseReportShape | src/components/Terminal.tsx:135-139 | the expense report is a heading and then one line per row, at most six |
| Terminal.ShowExpensesLimit | src/components/Terminal.tsx:129-139 | `show expenses` prints the heading and at most six rows in the store's order |
| Terminal.Console.constructor | src/components/Terminal.tsx:7-11 | the log starts as exactly the two welcome lines, the input empty |
| Terminal.Console.Edit | src/components/Terminal.tsx:11 | typing sets the command text |
| Terminal.Console.HandleCommand | src/components/Terminal.tsx:17-145 | the reply's lines are appended to the log, or replace it on clear; the reply's store call is returned |
| Terminal.Console.Submit | src/components/Terminal.tsx:147-154 | blank input changes nothing; otherwise "> cmd" is logged, the command is handled, and the input is cleared |
| SummaryRoute.Select | src/app/api/summary/route.ts:28-40 | each query (the same `filters` serve both tables) returns only the user's rows with `from <= date <= to`, absent bounds not restricting, as a sub-list in table order; with SelectCounts, each such row exactly as often as the table holds it |
| SummaryRoute.SelectCounts | src/app/api/summary/route.ts:28-40 | each of the user's in-range rows is returned as many times as the table holds it, and no other row is returned |
| SummaryRoute.Totals | src/app/api/summary/route.ts:62 | net savings is income plus borrowed minus expenses |
| SummaryRoute.SplitIncome | src/app/api/summary/route.ts:49-58 | the `forEach` adds each non-borrowed amount to `totalIncome` and each borrowed amount to `totalBorrowed` |
| SummaryRoute.Expected | src/app/api/summary/route.ts:12-71 | the response the handler owes: 401, then 500, then the figures; Get is proved equal to it, and UnauthorizedIgnoresTables, FailurePrefersIncomeMessage, EmptyIsZero and Scenario state its cases |
| SummaryRoute.Get | src/app/api/summary/route.ts:12-71 | the handler's response is the one the rules prescribe: 401, then 500, then the figures of the user's rows in range |
| SummaryRoute.IncomePartition | src/app/api/summary/route.ts:52-58 | earned and borrowed partition the income sum |
| SummaryRoute.OnlyBorrowedIsBorrowed | src/app/api/summary/route.ts:53-57 | a row counts as borrowed iff its type is "borrowed", and then only there |
| SummaryRoute.NetSavingsIsAllIncomeLessExpenses | src/app/api/summary/route.ts:62 | net savings is all income, borrowed included, less expenses |
| SummaryRoute.EmptyIsZero | src/app/api/summary/route.ts:49-62 | with null or empty rows every figure is 0 |
| SummaryRoute.UnauthorizedIgnoresTables | src/app/api/summary/route.ts:20-22 | an auth error or no user gives 401 whatever the tables hold |
| SummaryRoute.FailurePrefersIncomeMessage | src/app/api/summary/route.ts:42-47 | a failed query gives 500 with the income error's message if non-empty, else the expense error's |
| SummaryRoute.NarrowIsSubsequence | src/app/api/summary/route.ts:28-32 | the rows in a range are a sub-list of the user's rows |
| SummaryRoute.RangeNarrowsTotals | src/app/api/summary/route.ts:28-60 | with non-negative amounts a date range never increases a table's total |
| SummaryRoute.ScenarioOtherUser | src/app/api/summary/route.ts:34-36 | another user's row is not returned, though it is in range |
| SummaryRoute.ScenarioIncome | src/app/api/summary/route.ts:28-36 | of the income rows, only the user's are returned, including those on both bounds |
| SummaryRoute.ScenarioExpenses | src/app/api/summary/route.ts:28-40 | a row after `to` is not returned |
| SummaryRoute.ScenarioTotals | src/app/api/summary/route.ts:49-62 | salary 2000 and borrowed 500 less 800 spent gives net savings 1700 |
| SummaryRoute.Scenario | src/app/api/summary/route.ts:12-71 | the whole request over those rows answers 2000 earned, 500 borrowed, 800 spent, 1700 saved |

## Left out

- The Supabase client (auth lookups, `from/select/eq/insert`, channels) is not modelled as code. The user, the rows a query returns, a query's error and an insert's error are parameters. `.order`/`.limit` in the terminal are trusted: the store's rows are shown as given, at most five or six.
- Asynchronous timing is not modelled: the interleaving of the bulk fetch with channel events, and React's effect and state-update scheduling. `LiveCollection` applies events one at a time, in delivery order.
- Owner filtering of change events: the channel listens to the whole table, and so does the model.
- Floating point: amounts are integers, and `Number()`/`parseFloat` of an amount is not modelled. The terminal's amount text is a parameter, so NaN is not modelled. Percentages and the average are exact reals, without `toFixed` rounding. `toLocaleString` is not modelled.
- Dates: a `created_at` day is the whole number of UTC days since the epoch, and an income date is a calendar date whose month is numbered `year * 12 + month - 1`. The dashboard's month bounds and the charts' "now" are parameters. Time zones, `date-fns` and `format`/`toLocaleDateString` are not modelled. The terminal's date text is part of its row.
- Terminal.LowerAscii: lower-cases ASCII letters only, where `toLowerCase` also folds other scripts.
- Tally.Totals: keys come back in first-seen order, whereas `Object.entries` lists integer-like keys (such as a category "2024") first, in numeric order.
- Tally.Accumulate: the accumulator is modelled as a list of distinct keys with exact sums. The source's plain object `{}` differs for keys that `Object.prototype` already has. For a key such as "toString" or "constructor", `acc[key] || 0` reads the inherited function, so the total becomes a string. A "__proto__" key is never stored, so its amount is missing from the breakdown and from its grand total. TotalsAreSums, TotalsKeepGrandTotal, CategoryBreakdown, PieChartData and SourceData hold only for categories and sources that are not such names.
- ExpenseChart.SortNewestFirst: an insertion sort. It moves a row only past strictly older rows, so expenses with equal timestamps keep their input order, as in the stable `Array.prototype.sort` of ES2019. Stability is not stated as an ensures.
- IncomeChart.SortByAmount: an insertion sort. Each entry is inserted ahead of the later entries whose total it equals or exceeds, so equal totals keep their first-seen order, as in the stable `Array.prototype.sort` of ES2019. Stability is not stated as an ensures.
- ExpenseChart.RecentExpenses: sorts an array of its own. In the source, `expenses?.sort(...)` reorders the `expenses` prop in place, and the dashboard passes the hook's own `data` array as that prop (src/components/RealtimeDashboard.tsx:352-353). Rendering the recent list therefore reorders the hook's state newest-first. Later INSERTs are appended after that order, and the next pie chart's first-seen category order, and so its colours, follow it. The model's `LiveCollection.data` keeps delivery order, and this aliasing is not captured.
- SummaryRoute.Select: expense rows are assumed to have a `date` column, which the route filters on. The rest of the code reads and writes expenses only through `created_at`. The table schema is not part of this model. Without a `date` column the route's expense query would fail with a 500 whenever `from` or `to` is given.
- Rendering is not modelled: JSX, styling, recharts and the tabs. The form components and the other pages are not part of this model.
