/// The command interpreter of `Terminal` (src/components/Terminal.tsx): a log of
/// output lines and the text being typed.  A submitted command is trimmed,
/// split on single spaces, dispatched on its lower-cased first word and exact
/// second word, and answered by appending lines to the log (or, for `clear`,
/// replacing it).  The signed-in user and the rows and errors the store
/// returns are parameters, and so is the text JavaScript prints for
/// `parseFloat` of the amount word.
module Terminal {
  import opened Basics

  // ---------------------------------------------------------------------
  // Trimming and splitting.
  // ---------------------------------------------------------------------

  /** The characters `String.prototype.trim` removes: white space and line terminators. */
  predicate IsSpace(c: char)
  {
    ('\U{9}' <= c <= '\U{D}') || c == ' ' || c == '\U{A0}' || c == '\U{1680}' ||
    ('\U{2000}' <= c <= '\U{200A}') || c == '\U{2028}' || c == '\U{2029}' ||
    c == '\U{202F}' || c == '\U{205F}' || c == '\U{3000}' || c == '\U{FEFF}'
  }

  /** `s` with its leading white space removed. */
  function TrimStart(s: string): (r: string)
    ensures |r| <= |s| && r == s[|s| - |r|..]
    ensures forall k :: 0 <= k < |s| - |r| ==> IsSpace(s[k])
    ensures r != [] ==> !IsSpace(r[0])
  {
    if s == [] || !IsSpace(s[0]) then s else TrimStart(s[1..])
  }

  /** `s` with its trailing white space removed. */
  function TrimEnd(s: string): (r: string)
    ensures |r| <= |s| && r == s[..|r|]
    ensures forall k :: |r| <= k < |s| ==> IsSpace(s[k])
    ensures r != [] ==> !IsSpace(r[|r| - 1])
  {
    if s == [] || !IsSpace(s[|s| - 1]) then s else TrimEnd(s[..|s| - 1])
  }

  /** `s.trim()`: empty exactly when `s` is all white space. */
  function Trim(s: string): (r: string)
    ensures r == [] <==> forall k :: 0 <= k < |s| ==> IsSpace(s[k])
    ensures r != [] ==> !IsSpace(r[0]) && !IsSpace(r[|r| - 1])
  {
    TrimBothEnds(s);
    TrimEnd(TrimStart(s))
  }

  lemma TrimBothEnds(s: string)
    ensures TrimEnd(TrimStart(s)) == [] <==> forall k :: 0 <= k < |s| ==> IsSpace(s[k])
  {
    var front := TrimStart(s);
    var r := TrimEnd(front);
    var cut := |s| - |front|;
    if r == [] {
      forall k | 0 <= k < |s|
        ensures IsSpace(s[k])
      {
        if k >= cut {
          assert s[k] == front[k - cut];
        }
      }
    } else {
      assert r[0] == front[0] == s[cut];
    }
  }

  /** A string that neither starts nor ends with white space is its own trim. */
  lemma TrimKeepsTrimmed(s: string)
    requires s == [] || (!IsSpace(s[0]) && !IsSpace(s[|s| - 1]))
    ensures Trim(s) == s
  {
    assert TrimStart(s) == s;
    assert TrimEnd(s) == s;
  }

  /** Trimming twice is trimming once. */
  lemma TrimIdempotent(s: string)
    ensures Trim(Trim(s)) == Trim(s)
  {
    var t := Trim(s);
    assert t == [] || (!IsSpace(t[0]) && !IsSpace(t[|t| - 1]));
    TrimKeepsTrimmed(t);
  }

  /** `s.split(" ")`: the pieces between single spaces, so two spaces in a row give an empty piece. */
  function Split(s: string): (parts: seq<string>)
    ensures |parts| >= 1
    ensures forall p :: p in parts ==> ' ' !in p
    decreases |s|
  {
    if s == [] then [""]
    else
      var rest := Split(s[1..]);
      if s[0] == ' ' then [""] + rest
      else
        assert rest[0] in rest;
        [[s[0]] + rest[0]] + rest[1..]
  }

  /** `parts.join(" ")`. */
  function Join(parts: seq<string>): string
  {
    if parts == [] then ""
    else if |parts| == 1 then parts[0]
    else parts[0] + " " + Join(parts[1..])
  }

  /** Joining the pieces again with single spaces gives back the string. */
  lemma {:induction false} JoinSplit(s: string)
    ensures Join(Split(s)) == s
    decreases |s|
  {
    if s != [] {
      var rest := Split(s[1..]);
      JoinSplit(s[1..]);
      if s[0] == ' ' {
        assert ([""] + rest)[1..] == rest;
      } else if |rest| > 1 {
        var parts := [[s[0]] + rest[0]] + rest[1..];
        assert parts[1..] == rest[1..];
        assert Join(rest) == rest[0] + " " + Join(rest[1..]);
      }
    }
  }

  lemma {:induction false} SplitNoSpace(p: string)
    requires ' ' !in p
    ensures Split(p) == [p]
    decreases |p|
  {
    if p != [] {
      assert ' ' !in p[1..];
      SplitNoSpace(p[1..]);
      assert [p[0]] + p[1..] == p;
    }
  }

  lemma {:induction false} SplitAfterWord(p: string, t: string)
    requires ' ' !in p
    ensures Split(p + " " + t) == [p] + Split(t)
    decreases |p|
  {
    var s := p + " " + t;
    if p == [] {
      assert s[1..] == t;
    } else {
      assert ' ' !in p[1..];
      assert s[1..] == p[1..] + " " + t;
      SplitAfterWord(p[1..], t);
      assert [p[0]] + p[1..] == p;
    }
  }

  /** Words without spaces, joined with single spaces, split back into the same words. */
  lemma {:induction false} SplitJoin(parts: seq<string>)
    requires |parts| >= 1
    requires forall p :: p in parts ==> ' ' !in p
    ensures Split(Join(parts)) == parts
    decreases |parts|
  {
    assert parts[0] in parts;
    if |parts| == 1 {
      SplitNoSpace(parts[0]);
    } else {
      assert forall p :: p in parts[1..] ==> p in parts;
      SplitJoin(parts[1..]);
      SplitAfterWord(parts[0], Join(parts[1..]));
      assert [parts[0]] + parts[1..] == parts;
    }
  }

  // ---------------------------------------------------------------------
  // Dispatch.
  // ---------------------------------------------------------------------

  function LowerChar(c: char): char
  {
    if 'A' <= c <= 'Z' then (c as int + 32) as char else c
  }

  /** `toLowerCase()` on the ASCII letters. */
  function LowerAscii(s: string): (r: string)
    ensures |r| == |s|
    ensures forall i :: 0 <= i < |s| ==> r[i] == LowerChar(s[i])
  {
    seq(|s|, i requires 0 <= i < |s| => LowerChar(s[i]))
  }

  /** Lower-casing twice is lower-casing once. */
  lemma LowerIdempotent(s: string)
    ensures LowerAscii(LowerAscii(s)) == LowerAscii(s)
  {
  }

  /** What a submitted line asks for; the add commands carry their words, defaults applied. */
  datatype Command =
    | Help
    | AddIncome(amountWord: Option<string>, source: string)
    | AddExpense(amountWord: Option<string>, category: string, title: string)
    | ShowBalance
    | ShowIncome
    | ShowExpenses
    | Clear
    | Unknown

  /** `args[i]`, which is `undefined` past the end. */
  function Word(args: seq<string>, i: nat): Option<string>
  {
    if i < |args| then Some(args[i]) else None
  }

  /** `args.slice(i).join(" ") || fallback` */
  function RestOr(args: seq<string>, i: nat, fallback: string): string
  {
    var joined := if i < |args| then Join(args[i..]) else "";
    if joined == "" then fallback else joined
  }

  /** `args[i] || fallback` */
  function WordOr(args: seq<string>, i: nat, fallback: string): string
  {
    if i < |args| && args[i] != "" then args[i] else fallback
  }

  /** The `if`/`else if` chain of `handleCommand`: first word lower-cased, second word exact. */
  function Dispatch(args: seq<string>): Command
    requires |args| >= 1
  {
    var base := LowerAscii(args[0]);
    var second := Word(args, 1);
    if base == "help" then Help
    else if base == "add" && second == Some("income") then AddIncome(Word(args, 2), RestOr(args, 3, "other"))
    else if base == "add" && second == Some("expense") then
      AddExpense(Word(args, 2), WordOr(args, 3, "general"), RestOr(args, 4, "Terminal expense"))
    else if base == "show" && second == Some("balance") then ShowBalance
    else if base == "show" && second == Some("income") then ShowIncome
    else if base == "show" && second == Some("expenses") then ShowExpenses
    else if base == "clear" then Clear
    else Unknown
  }

  /** `cmd.trim().split(" ")`, then dispatch. */
  function Parse(cmd: string): Command
  {
    Dispatch(Split(Trim(cmd)))
  }

  /** Only the case of the first word's letters is ignored: the rest of the words must match exactly. */
  lemma FirstWordCaseInsensitive(args: seq<string>, first: string)
    requires |args| >= 1
    requires LowerAscii(first) == LowerAscii(args[0])
    ensures Dispatch([first] + args[1..]) == Dispatch(args)
  {
    var other := [first] + args[1..];
    assert forall i :: 1 <= i < |args| ==> other[i..] == args[i..];
  }

  /** The joined words start with the first word's first character. */
  lemma JoinStart(parts: seq<string>)
    requires |parts| >= 1 && parts[0] != ""
    ensures Join(parts) != "" && Join(parts)[0] == parts[0][0]
  {
  }

  /** The joined words end with the last word's last character. */
  lemma {:induction false} JoinEnd(parts: seq<string>)
    requires |parts| >= 1 && parts[|parts| - 1] != ""
    ensures Join(parts) != ""
    ensures Join(parts)[|Join(parts)| - 1] == parts[|parts| - 1][|parts[|parts| - 1]| - 1]
    decreases |parts|
  {
    if |parts| > 1 {
      JoinEnd(parts[1..]);
    }
  }

  /** A line made of words, without white space at either end, dispatches on exactly those words. */
  lemma ParseWords(parts: seq<string>)
    requires |parts| >= 1 && forall p :: p in parts ==> ' ' !in p
    requires parts[0] != "" && !IsSpace(parts[0][0])
    requires parts[|parts| - 1] != "" && !IsSpace(parts[|parts| - 1][|parts[|parts| - 1]| - 1])
    ensures Parse(Join(parts)) == Dispatch(parts)
  {
    JoinStart(parts);
    JoinEnd(parts);
    TrimKeepsTrimmed(Join(parts));
    SplitJoin(parts);
  }

  /** `HELP`, typed in capitals and followed by a tab, is still `help`. */
  lemma HelpInCapitals()
    ensures Parse("HELP\t") == Help
  {
    var s := "HELP\t";
    assert TrimStart(s) == s;
    assert s[..|s| - 1] == "HELP";
    assert Trim(s) == "HELP";
    SplitNoSpace("HELP");
    assert LowerAscii("HELP") == "help";
  }

  /** The second word is compared exactly: `add Income` is not a command. */
  lemma SecondWordIsExact()
    ensures Dispatch(["add", "Income", "5"]) == Unknown
  {
    assert LowerAscii("add") == "add";
    assert "Income" != "income" by {
      assert "Income"[0] != "income"[0];
    }
  }

  /** A line that is its own trim dispatches on its single-space pieces. */
  lemma ParseOf(line: string, words: seq<string>)
    requires Trim(line) == line && Split(line) == words
    ensures Parse(line) == Dispatch(words)
  {
  }

  /** Two spaces in a row leave an empty word between them. */
  lemma DoubleSpaceSplit()
    ensures Split("add  income 5") == ["add", "", "income", "5"]
  {
    var parts := ["add", "", "income", "5"];
    assert Join(parts) == "add  income 5";
    SplitJoin(parts);
  }

  /** Two spaces after `add` leave an empty second word, so the line is not a command. */
  lemma DoubleSpaceIsUnknown()
    ensures Parse("add  income 5") == Unknown
  {
    DoubleSpaceSplit();
    DoubleSpaceTrimmed();
    ParseOf("add  income 5", ["add", "", "income", "5"]);
    AddLowered();
    EmptySecondWordIsUnknown(["add", "", "income", "5"]);
  }

  lemma DoubleSpaceTrimmed()
    ensures Trim("add  income 5") == "add  income 5"
  {
    var line := "add  income 5";
    assert line[0] == 'a' && line[|line| - 1] == '5';
    TrimKeepsTrimmed(line);
  }

  lemma AddLowered()
    ensures LowerAscii("add") == "add"
  {
  }

  /** An empty second word matches no two-word command, so only `help` and `clear` survive it. */
  lemma EmptySecondWordIsUnknown(args: seq<string>)
    requires |args| >= 2 && args[1] == ""
    requires LowerAscii(args[0]) != "help" && LowerAscii(args[0]) != "clear"
    ensures Dispatch(args) == Unknown
  {
  }

  /** `add income` without a source word (or with only empty ones) takes the default source "other". */
  lemma AddIncomeDefault(args: seq<string>)
    requires |args| >= 2 && LowerAscii(args[0]) == "add" && args[1] == "income"
    requires |args| <= 3 || Join(args[3..]) == ""
    ensures Dispatch(args) == AddIncome(Word(args, 2), "other")
  {
  }

  /** `add expense` with an empty or missing category and no title takes "general" and "Terminal expense". */
  lemma AddExpenseDefaults(args: seq<string>)
    requires |args| >= 2 && LowerAscii(args[0]) == "add" && args[1] == "expense"
    requires |args| <= 3 || args[3] == ""
    requires |args| <= 4 || Join(args[4..]) == ""
    ensures Dispatch(args) == AddExpense(Word(args, 2), "general", "Terminal expense")
  {
  }

  /** Every word from the fifth on belongs to the title, rejoined with single spaces. */
  lemma AddExpenseLongTitle(args: seq<string>)
    requires |args| >= 5 && LowerAscii(args[0]) == "add" && args[1] == "expense"
    requires Join(args[4..]) != ""
    ensures Dispatch(args) == AddExpense(Some(args[2]), WordOr(args, 3, "general"), Join(args[4..]))
  {
  }

  /** A title typed as several words comes back with the single spaces between them. */
  lemma TeamLunchTitle()
    ensures Dispatch(["add", "expense", "250", "Food", "Team", "lunch"]) == AddExpense(Some("250"), "Food", "Team lunch")
  {
    var parts := ["add", "expense", "250", "Food", "Team", "lunch"];
    assert parts[4..] == ["Team", "lunch"];
    AddLowered();
    AddExpenseLongTitle(parts);
  }

  // ---------------------------------------------------------------------
  // Answers.
  // ---------------------------------------------------------------------

  function DigitChar(d: int): char
    requires 0 <= d < 10
  {
    ('0' as int + d) as char
  }

  /** The decimal digits of `n`. */
  function NatToString(n: nat): (s: string)
    ensures |s| >= 1 && forall i :: 0 <= i < |s| ==> '0' <= s[i] <= '9'
    ensures |s| > 1 ==> s[0] != '0'
  {
    if n < 10 then [DigitChar(n)] else NatToString(n / 10) + [DigitChar(n % 10)]
  }

  /** `${n}` for a whole number. */
  function IntToString(n: int): string
  {
    if n < 0 then "-" + NatToString(-n) else NatToString(n)
  }

  /** The value of a string of decimal digits. */
  function DigitsValue(s: string): int
    requires forall i :: 0 <= i < |s| ==> '0' <= s[i] <= '9'
  {
    if s == [] then 0 else DigitsValue(s[..|s| - 1]) * 10 + (s[|s| - 1] as int - '0' as int)
  }

  /** Reading the printed number back gives the number, after the minus sign when there is one. */
  lemma IntToStringReadsBack(n: int)
    ensures n >= 0 ==> DigitsValue(IntToString(n)) == n
    ensures n < 0 ==> IntToString(n) == "-" + NatToString(-n) && DigitsValue(NatToString(-n)) == -n
  {
    if n < 0 {
      NatToStringReadsBack(-n);
    } else {
      NatToStringReadsBack(n);
    }
  }

  lemma {:induction false} NatToStringReadsBack(n: nat)
    ensures DigitsValue(NatToString(n)) == n
    decreases n
  {
    if n >= 10 {
      var s := NatToString(n);
      NatToStringReadsBack(n / 10);
      assert s[..|s| - 1] == NatToString(n / 10);
      assert s[|s| - 1] as int - '0' as int == n % 10;
    }
  }

  /** A row of `show income`, as the store returns it; its date is the text `toLocaleDateString` printed. */
  datatype IncomeLine = IncomeLine(amount: int, source: Option<string>, dateText: string)

  /** A row of `show expenses`, as the store returns it. */
  datatype ExpenseLine = ExpenseLine(amount: int, category: Option<string>, title: Option<string>)

  /**
   * What the store answers for this command: the signed-in user, the insert's
   * error message if it failed, the amount columns for the balance, and the
   * recent rows, newest first (`None` where a query returned no data).
   */
  datatype Store = Store(
    user: Option<string>,
    insertError: Option<string>,
    incomeAmounts: Option<seq<int>>,
    expenseAmounts: Option<seq<int>>,
    recentIncome: Option<seq<IncomeLine>>,
    recentExpenses: Option<seq<ExpenseLine>>)

  /** The store call a command makes, if any. */
  datatype Request =
    | NoRequest
    | InsertIncome(amount: string, source: string, userId: string)
    | InsertExpense(amount: string, category: string, title: string, userId: string)
    | SelectBalance(userId: string)
    | SelectIncome(userId: string, limit: nat)
    | SelectExpenses(userId: string, limit: nat)

  /** The lines a command produces, whether they replace the log, and the store call it makes. */
  datatype Reply = Reply(resets: bool, lines: seq<string>, request: Request)

  const Welcome: seq<string> := ["💻 Welcome to Finance Terminal", "💡 Type 'help' to see commands"]

  const HelpLines: seq<string> := [
    "📖 Commands:",
    "➡ add income <amount> <source>",
    "➡ add expense <amount> <category> <title>",
    "➡ show balance",
    "➡ show income",
    "➡ show expenses",
    "➡ clear"
  ]

  const Cleared: string := "💻 Terminal cleared. Type 'help' to see commands"

  const NotAuthenticated: string := "❌ Not authenticated"

  const IncomeLimit: nat := 5

  const ExpenseLimit: nat := 6

  /** A template literal's text for a value that may be `null`. */
  function TextOf(v: Option<string>): string
  {
    if v.Some? then v.value else "null"
  }

  function AmountTotal(amounts: Option<seq<int>>): int
  {
    if amounts.Some? then SumBy(amounts.value, Same) else 0
  }

  function Same(n: int): int
  {
    n
  }

  function IncomeText(i: IncomeLine): string
  {
    "+ ₹" + IntToString(i.amount) + " (" + TextOf(i.source) + ") on " + i.dateText
  }

  function ExpenseText(e: ExpenseLine): string
  {
    "- ₹" + IntToString(e.amount) + " (" + TextOf(e.category) + ") - " + TextOf(e.title)
  }

  function IncomeTexts(rows: seq<IncomeLine>): (r: seq<string>)
    ensures |r| == |rows| && forall i :: 0 <= i < |rows| ==> r[i] == IncomeText(rows[i])
  {
    seq(|rows|, i requires 0 <= i < |rows| => IncomeText(rows[i]))
  }

  function ExpenseTexts(rows: seq<ExpenseLine>): (r: seq<string>)
    ensures |r| == |rows| && forall i :: 0 <= i < |rows| ==> r[i] == ExpenseText(rows[i])
  {
    seq(|rows|, i requires 0 <= i < |rows| => ExpenseText(rows[i]))
  }

  /** The commands that look up the user before anything else. */
  predicate NeedsUser(c: Command)
  {
    c.AddIncome? || c.AddExpense? || c.ShowBalance? || c.ShowIncome? || c.ShowExpenses?
  }

  /** The one line an add prints: the store's error message, or the confirmation. */
  function AddedLine(insertError: Option<string>, confirmation: string): string
  {
    if insertError.Some? then "❌ " + insertError.value else confirmation
  }

  function IncomeAdded(amount: string, source: string): string
  {
    "✅ Income of ₹" + amount + " (" + source + ") added"
  }

  function ExpenseAdded(amount: string, category: string, title: string): string
  {
    "✅ Expense of ₹" + amount + " (" + category + ") - " + title + " added"
  }

  function BalanceLine(store: Store): string
  {
    "💰 Current Balance: ₹" + IntToString(AmountTotal(store.incomeAmounts) - AmountTotal(store.expenseAmounts))
  }

  function IncomeReport(rows: Option<seq<IncomeLine>>): seq<string>
  {
    ["📈 Recent Income:"] + IncomeTexts(Take(OrEmpty(rows), IncomeLimit))
  }

  function ExpenseReport(rows: Option<seq<ExpenseLine>>): seq<string>
  {
    ["📉 Recent Expenses:"] + ExpenseTexts(Take(OrEmpty(rows), ExpenseLimit))
  }

  /**
   * The answer of a signed-in user's command.  `amountText` is the text that
   * `${parseFloat(word)}` prints for the amount word (`NaN` for no word).
   */
  function Perform(c: Command, userId: string, store: Store, amountText: Option<string> -> string): Reply
    requires NeedsUser(c)
  {
    match c
    case AddIncome(word, source) =>
      var amount := amountText(word);
      Reply(false, [AddedLine(store.insertError, IncomeAdded(amount, source))], InsertIncome(amount, source, userId))
    case AddExpense(word, category, title) =>
      var amount := amountText(word);
      Reply(false, [AddedLine(store.insertError, ExpenseAdded(amount, category, title))], InsertExpense(amount, category, title, userId))
    case ShowBalance =>
      Reply(false, [BalanceLine(store)], SelectBalance(userId))
    case ShowIncome =>
      Reply(false, IncomeReport(store.recentIncome), SelectIncome(userId, IncomeLimit))
    case ShowExpenses =>
      Reply(false, ExpenseReport(store.recentExpenses), SelectExpenses(userId, ExpenseLimit))
  }

  /** The branch of `handleCommand` taken for command `c`, typed as `cmd`. */
  function Answer(c: Command, cmd: string, store: Store, amountText: Option<string> -> string): Reply
  {
    if c.Help? then Reply(false, HelpLines, NoRequest)
    else if c.Clear? then Reply(true, [Cleared], NoRequest)
    else if c.Unknown? then Reply(false, ["❓ Unknown command: " + cmd], NoRequest)
    else if store.user.None? then Reply(false, [NotAuthenticated], NoRequest)
    else Perform(c, store.user.value, store, amountText)
  }

  /** `handleCommand(cmd)`, as the reply it produces. */
  function Respond(cmd: string, store: Store, amountText: Option<string> -> string): Reply
  {
    Answer(Parse(cmd), cmd, store, amountText)
  }

  /** The log after a reply: replaced by `clear`, otherwise extended. */
  function After(logs: seq<string>, reply: Reply): seq<string>
  {
    if reply.resets then reply.lines else logs + reply.lines
  }

  /** `help` appends its seven lines and asks nothing of the store. */
  lemma HelpAppendsSeven(cmd: string, store: Store, amountText: Option<string> -> string, logs: seq<string>)
    ensures After(logs, Answer(Help, cmd, store, amountText)) == logs + HelpLines
    ensures |After(logs, Answer(Help, cmd, store, amountText))| == |logs| + 7
    ensures Answer(Help, cmd, store, amountText).request == NoRequest
  {
  }

  /** `clear` throws away the whole log, leaving the one line that says so. */
  lemma ClearResets(cmd: string, store: Store, amountText: Option<string> -> string, logs: seq<string>)
    ensures After(logs, Answer(Clear, cmd, store, amountText)) == [Cleared]
  {
  }

  /** Anything else appends one line quoting the command as typed, untrimmed. */
  lemma UnknownQuotes(cmd: string, store: Store, amountText: Option<string> -> string, logs: seq<string>)
    ensures After(logs, Answer(Unknown, cmd, store, amountText)) == logs + ["❓ Unknown command: " + cmd]
    ensures Answer(Unknown, cmd, store, amountText).request == NoRequest
  {
  }

  /** Without a signed-in user the add and show commands append one line and make no store call. */
  lemma SignedOutShortCircuits(c: Command, cmd: string, store: Store, amountText: Option<string> -> string, logs: seq<string>)
    requires NeedsUser(c) && store.user.None?
    ensures After(logs, Answer(c, cmd, store, amountText)) == logs + [NotAuthenticated]
    ensures Answer(c, cmd, store, amountText).request == NoRequest
  {
  }

  /** With a signed-in user every add and show command appends at least one line and makes a store call for that user. */
  lemma SignedInCallsStore(c: Command, cmd: string, store: Store, amountText: Option<string> -> string)
    requires NeedsUser(c) && store.user.Some?
    ensures Answer(c, cmd, store, amountText).request != NoRequest
    ensures Answer(c, cmd, store, amountText).request.userId == store.user.value
    ensures !Answer(c, cmd, store, amountText).resets && |Answer(c, cmd, store, amountText).lines| >= 1
  {
  }

  /**
   * A signed-in add inserts one row for the user, with the defaults applied,
   * and appends one line: the store's error message, or the confirmation.
   */
  lemma AddOutcome(c: Command, cmd: string, store: Store, amountText: Option<string> -> string)
    requires (c.AddIncome? || c.AddExpense?) && store.user.Some?
    ensures var reply := Answer(c, cmd, store, amountText);
      var amount := amountText(c.amountWord);
      !reply.resets &&
      (c.AddIncome? ==> reply.request == InsertIncome(amount, c.source, store.user.value)) &&
      (c.AddExpense? ==> reply.request == InsertExpense(amount, c.category, c.title, store.user.value)) &&
      (store.insertError.Some? ==> reply.lines == ["❌ " + store.insertError.value]) &&
      (store.insertError.None? && c.AddIncome? ==> reply.lines == [IncomeAdded(amount, c.source)]) &&
      (store.insertError.None? && c.AddExpense? ==> reply.lines == [ExpenseAdded(amount, c.category, c.title)])
  {
  }

  /** `show balance` prints the income sum minus the expense sum, an absent list counting as 0. */
  lemma BalanceIsDifference(cmd: string, store: Store, amountText: Option<string> -> string)
    requires store.user.Some?
    ensures Answer(ShowBalance, cmd, store, amountText).lines ==
      ["💰 Current Balance: ₹" + IntToString(AmountTotal(store.incomeAmounts) - AmountTotal(store.expenseAmounts))]
    ensures store.incomeAmounts.None? && store.expenseAmounts.None? ==>
      Answer(ShowBalance, cmd, store, amountText).lines == ["💰 Current Balance: ₹0"]
  {
    assert Answer(ShowBalance, cmd, store, amountText).lines == [BalanceLine(store)];
    if store.incomeAmounts.None? && store.expenseAmounts.None? {
      assert AmountTotal(store.incomeAmounts) - AmountTotal(store.expenseAmounts) == 0;
      assert IntToString(0) == "0";
      assert "💰 Current Balance: ₹" + "0" == "💰 Current Balance: ₹0";
    }
  }

  /** `show income` prints a heading and at most five rows, in the store's order. */
  lemma ShowIncomeLimit(cmd: string, store: Store, amountText: Option<string> -> string)
    requires store.user.Some?
    ensures var lines := Answer(ShowIncome, cmd, store, amountText).lines;
      lines[0] == "📈 Recent Income:" &&
      |lines| == 1 + Min(IncomeLimit, |OrEmpty(store.recentIncome)|) &&
      forall i :: 1 <= i < |lines| ==> lines[i] == IncomeText(store.recentIncome.value[i - 1])
  {
    assert Answer(ShowIncome, cmd, store, amountText).lines == IncomeReport(store.recentIncome);
    IncomeReportShape(store.recentIncome);
  }

  lemma IncomeReportShape(rows: Option<seq<IncomeLine>>)
    ensures var lines := IncomeReport(rows);
      lines[0] == "📈 Recent Income:" &&
      |lines| == 1 + Min(IncomeLimit, |OrEmpty(rows)|) &&
      forall i :: 1 <= i < |lines| ==> lines[i] == IncomeText(rows.value[i - 1])
  {
    var shown := Take(OrEmpty(rows), IncomeLimit);
    var texts := IncomeTexts(shown);
    var lines := IncomeReport(rows);
    assert lines == ["📈 Recent Income:"] + texts;
    forall i | 1 <= i < |lines|
      ensures lines[i] == IncomeText(rows.value[i - 1])
    {
      assert lines[i] == texts[i - 1];
      assert shown[i - 1] == OrEmpty(rows)[i - 1];
    }
  }

  /** `show expenses` prints a heading and at most six rows, in the store's order. */
  lemma ShowExpensesLimit(cmd: string, store: Store, amountText: Option<string> -> string)
    requires store.user.Some?
    ensures var lines := Answer(ShowExpenses, cmd, store, amountText).lines;
      lines[0] == "📉 Recent Expenses:" &&
      |lines| == 1 + Min(ExpenseLimit, |OrEmpty(store.recentExpenses)|) &&
      forall i :: 1 <= i < |lines| ==> lines[i] == ExpenseText(store.recentExpenses.value[i - 1])
  {
    assert Answer(ShowExpenses, cmd, store, amountText).lines == ExpenseReport(store.recentExpenses);
    ExpenseReportShape(store.recentExpenses);
  }

  lemma ExpenseReportShape(rows: Option<seq<ExpenseLine>>)
    ensures var lines := ExpenseReport(rows);
      lines[0] == "📉 Recent Expenses:" &&
      |lines| == 1 + Min(ExpenseLimit, |OrEmpty(rows)|) &&
      forall i :: 1 <= i < |lines| ==> lines[i] == ExpenseText(rows.value[i - 1])
  {
    var shown := Take(OrEmpty(rows), ExpenseLimit);
    var texts := ExpenseTexts(shown);
    var lines := ExpenseReport(rows);
    assert lines == ["📉 Recent Expenses:"] + texts;
    forall i | 1 <= i < |lines|
      ensures lines[i] == ExpenseText(rows.value[i - 1])
    {
      assert lines[i] == texts[i - 1];
      assert shown[i - 1] == OrEmpty(rows)[i - 1];
    }
  }

  // ---------------------------------------------------------------------
  // The component's state.
  // ---------------------------------------------------------------------

  /** The terminal: the lines shown so far and the command being typed. */
  class Console {
    var logs: seq<string>
    var command: string

    constructor()
      ensures logs == Welcome && command == ""
    {
      logs := Welcome;
      command := "";
    }

    /** Typing into the input field. */
    method Edit(text: string)
      modifies this`command
      ensures command == text
    {
      command := text;
    }

    /** `handleCommand(cmd)`: the reply's lines go onto the log (or replace it), and its store call is returned. */
    method HandleCommand(cmd: string, store: Store, amountText: Option<string> -> string) returns (request: Request)
      modifies this`logs
      ensures request == Respond(cmd, store, amountText).request
      ensures logs == After(old(logs), Respond(cmd, store, amountText))
    {
      var reply := Respond(cmd, store, amountText);
      if reply.resets {
        logs := reply.lines;
      } else {
        logs := logs + reply.lines;
      }
      request := reply.request;
    }

    /**
     * `handleSubmit`: a blank command does nothing; otherwise the command is
     * echoed after "> ", handled, and the input cleared.
     */
    method Submit(store: Store, amountText: Option<string> -> string) returns (request: Option<Request>)
      modifies this
      ensures Trim(old(command)) == "" ==> request == None && logs == old(logs) && command == old(command)
      ensures Trim(old(command)) != "" ==>
        var reply := Respond(old(command), store, amountText);
        request == Some(reply.request) &&
        logs == After(old(logs) + ["> " + old(command)], reply) &&
        command == ""
    {
      if Trim(command) == "" {
        return None;
      }
      logs := logs + ["> " + command];
      var r := HandleCommand(command, store, amountText);
      request := Some(r);
      command := "";
    }
  }

  /** The words of the sample command below. */
  const SessionWordList: seq<string> := ["add", "expense", "250", "Food", "Lunch"]

  /** `add expense 250 Food Lunch` (the words joined by single spaces) adds a 250 expense titled Lunch under Food. */
  lemma SessionParse()
    ensures Parse(Join(SessionWordList)) == AddExpense(Some("250"), "Food", "Lunch")
  {
    var words := SessionWordList;
    assert forall p :: p in words ==> ' ' !in p;
    assert words[0][0] == 'a' && words[4][4] == 'h';
    ParseWords(words);
    SessionWords();
  }

  lemma SessionWords()
    ensures Dispatch(SessionWordList) == AddExpense(Some("250"), "Food", "Lunch")
  {
    var parts := SessionWordList;
    assert parts[4..] == ["Lunch"];
    assert LowerAscii("add") == "add";
  }
}
