/** The reports page (src/pages/Reports.tsx): the summary figures, the
    per-category and per-status totals, the flattened CSV export and the
    choice of reporting period. */
module Reports {
  import opened Common
  import opened Text
  import opened Records

  // ---------------------------------------------------------------------
  // Summary figures (lines 172-175)

  function TotalIncome(income: seq<Income>): real
  {
    Sum(income, IncomeAmount)
  }

  function TotalExpenses(expenses: seq<Expense>): real
  {
    Sum(expenses, ExpenseAmount)
  }

  function NetProfit(income: seq<Income>, expenses: seq<Expense>): real
  {
    TotalIncome(income) - TotalExpenses(expenses)
  }

  /** Net profit as a percentage of income; 0 when there is no positive
      income to divide by. */
  function ProfitMargin(totalIncome: real, netProfit: real): (m: real)
    ensures totalIncome <= 0.0 ==> m == 0.0
    ensures totalIncome > 0.0 ==> m * totalIncome == netProfit * 100.0
  {
    if totalIncome > 0.0 then netProfit / totalIncome * 100.0 else 0.0
  }

  /** With non-negative expenses the margin is at most 100%, exactly 100%
      when there are none, and negative exactly when expenses exceed
      income. */
  lemma MarginBounds(income: seq<Income>, expenses: seq<Expense>)
    requires forall x :: x in expenses ==> ExpenseAmount(x) >= 0.0
    requires TotalIncome(income) > 0.0
    ensures ProfitMargin(TotalIncome(income), NetProfit(income, expenses)) <= 100.0
    ensures expenses == [] ==> ProfitMargin(TotalIncome(income), NetProfit(income, expenses)) == 100.0
    ensures ProfitMargin(TotalIncome(income), NetProfit(income, expenses)) < 0.0
            <==> TotalExpenses(expenses) > TotalIncome(income)
  {
    SumNonNegative(expenses, ExpenseAmount);
    var t := TotalIncome(income);
    var m := ProfitMargin(t, NetProfit(income, expenses));
    assert m * t == (t - TotalExpenses(expenses)) * 100.0;
  }

  // ---------------------------------------------------------------------
  // Grouping reducers (lines 178-181, 189-192, 228-231)

  /** `xs.reduce((acc, x) => { acc[key(x)] = (acc[key(x)] || 0) + amount(x);
      return acc }, {})`. The accumulator object is its key order (the order
      `Object.entries` reports) and its key/value map. */
  method GroupTotals<T>(xs: seq<T>, key: T -> string, amount: T -> real)
    returns (order: seq<string>, totals: map<string, real>)
    ensures order == DistinctKeys(xs, key)
    ensures forall k :: k in totals <==> HasKey(xs, key, k)
    ensures forall k :: k in totals ==> totals[k] == KeyTotal(xs, key, amount, k)
  {
    order := [];
    totals := map[];
    var i := 0;
    while i < |xs|
      invariant 0 <= i <= |xs|
      invariant order == DistinctKeys(xs[..i], key)
      invariant forall k :: k in totals <==> k in order
      invariant forall k :: k in totals ==> totals[k] == KeyTotal(xs[..i], key, amount, k)
    {
      var k := key(xs[i]);
      var current := if k in totals then totals[k] else 0.0;
      if k !in totals {
        KeyTotalAbsent(xs[..i], key, amount, k);
        order := order + [k];
      }
      totals := totals[k := current + amount(xs[i])];
      assert xs[..i + 1][..i] == xs[..i];
      i := i + 1;
    }
    assert xs[..i] == xs;
  }

  /** `incomeByCategory`: every category present has a total, and the totals
      add up to the total income. */
  method IncomeByCategory(income: seq<Income>) returns (order: seq<string>, totals: map<string, real>)
    ensures forall c :: c in totals <==> HasKey(income, IncomeCategory, c)
    ensures forall c :: c in totals ==> totals[c] == KeyTotal(income, IncomeCategory, IncomeAmount, c)
    ensures SumKeyTotals(order, income, IncomeCategory, IncomeAmount) == TotalIncome(income)
  {
    order, totals := GroupTotals(income, IncomeCategory, IncomeAmount);
    GroupTotalsSum(income, IncomeCategory, IncomeAmount);
  }

  /** `expensesByCategory`. */
  method ExpensesByCategory(expenses: seq<Expense>) returns (order: seq<string>, totals: map<string, real>)
    ensures forall c :: c in totals <==> HasKey(expenses, ExpenseCategory, c)
    ensures forall c :: c in totals ==> totals[c] == KeyTotal(expenses, ExpenseCategory, ExpenseAmount, c)
    ensures SumKeyTotals(order, expenses, ExpenseCategory, ExpenseAmount) == TotalExpenses(expenses)
  {
    order, totals := GroupTotals(expenses, ExpenseCategory, ExpenseAmount);
    GroupTotalsSum(expenses, ExpenseCategory, ExpenseAmount);
  }

  /** `paymentStatusData`. */
  method IncomeByStatus(income: seq<Income>) returns (order: seq<string>, totals: map<string, real>)
    ensures forall st :: st in totals <==> HasKey(income, IncomeStatus, st)
    ensures forall st :: st in totals ==> totals[st] == KeyTotal(income, IncomeStatus, IncomeAmount, st)
    ensures SumKeyTotals(order, income, IncomeStatus, IncomeAmount) == TotalIncome(income)
  {
    order, totals := GroupTotals(income, IncomeStatus, IncomeAmount);
    GroupTotalsSum(income, IncomeStatus, IncomeAmount);
  }

  // ---------------------------------------------------------------------
  // CSV export (lines 246-266)

  const CsvHeader: seq<string> := ["Date", "Type", "Category", "Description", "Amount", "Status"]

  /** `dateText` stands for `new Date(date).toLocaleDateString()` and
      `numberText` for `Number.prototype.toString`. */
  function IncomeCsvRow(e: Income, dateText: string -> string, numberText: real -> string): seq<string>
  {
    [dateText(e.date), "Income", e.category, e.jobTitle, numberText(e.amount), e.paymentStatus]
  }

  /** An expense row shows the amount negated and always the status
      "Paid". */
  function ExpenseCsvRow(e: Expense, dateText: string -> string, numberText: real -> string): seq<string>
  {
    [dateText(e.date), "Expense", e.category, e.title, numberText(-e.amount), "Paid"]
  }

  /** The header, then one row per income entry, then one row per
      expense. */
  function CsvRows(income: seq<Income>, expenses: seq<Expense>, dateText: string -> string, numberText: real -> string)
    : (rows: seq<seq<string>>)
    ensures |rows| == 1 + |income| + |expenses|
    ensures rows[0] == CsvHeader
    ensures forall i :: 0 <= i < |income| ==> rows[1 + i] == IncomeCsvRow(income[i], dateText, numberText)
    ensures forall j :: 0 <= j < |expenses| ==>
      rows[1 + |income| + j] == ExpenseCsvRow(expenses[j], dateText, numberText)
  {
    [CsvHeader]
      + seq(|income|, i requires 0 <= i < |income| => IncomeCsvRow(income[i], dateText, numberText))
      + seq(|expenses|, j requires 0 <= j < |expenses| => ExpenseCsvRow(expenses[j], dateText, numberText))
  }

  /** Each row's fields joined by `,`. */
  function CsvLines(rows: seq<seq<string>>): (lines: seq<string>)
    ensures |lines| == |rows|
  {
    seq(|rows|, i requires 0 <= i < |rows| => Join(rows[i], ","))
  }

  /** Fields joined by `,`, rows by a newline, nothing quoted. */
  function CsvText(income: seq<Income>, expenses: seq<Expense>, dateText: string -> string, numberText: real -> string)
    : string
  {
    Join(CsvLines(CsvRows(income, expenses, dateText, numberText)), "\n")
  }

  /** No field of any row holds a comma or a newline. */
  predicate PlainFields(rows: seq<seq<string>>)
  {
    forall i, j :: 0 <= i < |rows| && 0 <= j < |rows[i]| ==> ',' !in rows[i][j] && '\n' !in rows[i][j]
  }

  /** Unquoted rows read back when no field holds a comma or a newline:
      splitting at newlines gives the lines, splitting a line at commas gives
      its fields. */
  lemma ReadBackRows(rows: seq<seq<string>>)
    requires |rows| >= 1
    requires forall i :: 0 <= i < |rows| ==> |rows[i]| >= 1
    requires PlainFields(rows)
    ensures Split(Join(CsvLines(rows), "\n"), '\n') == CsvLines(rows)
    ensures forall i :: 0 <= i < |rows| ==> Split(CsvLines(rows)[i], ',') == rows[i]
  {
    var lines := CsvLines(rows);
    forall i | 0 <= i < |rows|
      ensures '\n' !in lines[i] && Split(lines[i], ',') == rows[i]
    {
      JoinAvoids(rows[i], ",", '\n');
      SplitJoin(rows[i], ',');
    }
    SplitJoin(lines, '\n');
  }

  /** When no field holds a comma or a newline, the export reads back: it
      splits into one line per row, and each line splits into that row's six
      fields. */
  lemma CsvReadsBack(income: seq<Income>, expenses: seq<Expense>, dateText: string -> string, numberText: real -> string)
    requires PlainFields(CsvRows(income, expenses, dateText, numberText))
    ensures var rows := CsvRows(income, expenses, dateText, numberText);
      var lines := Split(CsvText(income, expenses, dateText, numberText), '\n');
      && |lines| == 1 + |income| + |expenses|
      && forall i :: 0 <= i < |lines| ==> Split(lines[i], ',') == rows[i] && |rows[i]| == 6
  {
    var rows := CsvRows(income, expenses, dateText, numberText);
    assert forall i :: 0 <= i < |rows| ==> |rows[i]| == 6 by {
      forall i | 0 <= i < |rows|
        ensures |rows[i]| == 6
      {
        if i == 0 {
        } else if i < 1 + |income| {
          assert rows[1 + (i - 1)] == IncomeCsvRow(income[i - 1], dateText, numberText);
        } else {
          assert rows[1 + |income| + (i - 1 - |income|)] == ExpenseCsvRow(expenses[i - 1 - |income|], dateText, numberText);
        }
      }
    }
    ReadBackRows(rows);
  }

  /** A field holding a comma shifts the columns: an income entry whose job
      title is "a,b" reads back as seven fields. */
  lemma CommaInFieldBreaksColumns(e: Income, dateText: string -> string, numberText: real -> string)
    requires e.jobTitle == "a,b"
    requires forall k :: 0 <= k < 6 && k != 3 ==> ',' !in IncomeCsvRow(e, dateText, numberText)[k]
    ensures |Split(Join(IncomeCsvRow(e, dateText, numberText), ","), ',')| == 7
  {
    var row := IncomeCsvRow(e, dateText, numberText);
    var fixed := row[..3] + ["a", "b"] + row[4..];
    assert row == row[..3] + ["a,b"] + row[4..];
    JoinAppend(row[..3], ["a,b"], ",");
    JoinAppend(row[..3] + ["a,b"], row[4..], ",");
    JoinAppend(["a"], ["b"], ",");
    assert Join(["a", "b"], ",") == "a,b";
    JoinAppend(row[..3], ["a", "b"], ",");
    JoinAppend(row[..3] + ["a", "b"], row[4..], ",");
    assert Join(row, ",") == Join(fixed, ",");
    assert forall k :: 0 <= k < |fixed| ==> ',' !in fixed[k] by {
      forall k | 0 <= k < |fixed|
        ensures ',' !in fixed[k]
      {
        if k < 3 { assert fixed[k] == row[k]; }
        else if k > 4 { assert fixed[k] == row[k - 1]; }
      }
    }
    SplitJoin(fixed, ',');
  }

  // ---------------------------------------------------------------------
  // Reporting period (lines 109-130)

  /** A calendar day; `month` counts from 1. */
  datatype Date = Date(year: int, month: int, day: int)

  predicate IsLeapYear(y: int)
  {
    (y % 4 == 0 && y % 100 != 0) || y % 400 == 0
  }

  function DaysInMonth(y: int, m: int): (d: int)
    requires 1 <= m <= 12
    ensures 28 <= d <= 31
  {
    if m == 2 then (if IsLeapYear(y) then 29 else 28)
    else if m == 4 || m == 6 || m == 9 || m == 11 then 30
    else 31
  }

  predicate ValidDate(d: Date)
  {
    1 <= d.month <= 12 && 1 <= d.day <= DaysInMonth(d.year, d.month)
  }

  /** `new Date(y, m, 1)` for a zero-based month that may lie outside 0..11:
      the month carries into the year. */
  function FirstDay(y: int, m0: int): (d: Date)
    ensures ValidDate(d) && d.day == 1
  {
    Date(y + m0 / 12, m0 % 12 + 1, 1)
  }

  /** `new Date(y, m + 1, 0)`: day 0 of the following month is the last day
      of month `m`. */
  function LastDay(y: int, m0: int): (d: Date)
    ensures ValidDate(d) && d.day == DaysInMonth(d.year, d.month)
  {
    var f := FirstDay(y, m0);
    Date(f.year, f.month, DaysInMonth(f.year, f.month))
  }

  /** The day after `d`. */
  function NextDay(d: Date): Date
    requires ValidDate(d)
  {
    if d.day < DaysInMonth(d.year, d.month) then Date(d.year, d.month, d.day + 1)
    else if d.month < 12 then Date(d.year, d.month + 1, 1)
    else Date(d.year + 1, 1, 1)
  }

  datatype ReportType = Monthly | Quarterly | Yearly | Custom

  /** The dates the page asks the services for. A custom range passes the
      two texts through unchanged. */
  datatype Period = Range(start: Date, end: Date) | CustomRange(startText: string, endText: string)

  function SelectPeriod(t: ReportType, year: int, month0: int, quarter: int, customStart: string, customEnd: string)
    : (p: Period)
    ensures t == Custom <==> p.CustomRange?
    ensures t == Custom ==> p == CustomRange(customStart, customEnd)
  {
    match t
    case Monthly => Range(FirstDay(year, month0), LastDay(year, month0))
    case Quarterly =>
      var quarterStartMonth := (quarter - 1) * 3;
      Range(FirstDay(year, quarterStartMonth), LastDay(year, quarterStartMonth + 2))
    case Yearly => Range(Date(year, 1, 1), Date(year, 12, 31))
    case Custom => CustomRange(customStart, customEnd)
  }

  /** Quarter q runs from the first day of month 3(q-1)+1 to the last day of
      month 3(q-1)+3, in the selected year. */
  lemma QuarterBounds(year: int, month0: int, quarter: int, cs: string, ce: string)
    requires 1 <= quarter <= 4
    ensures var m := 3 * (quarter - 1) + 1;
      SelectPeriod(Quarterly, year, month0, quarter, cs, ce)
        == Range(Date(year, m, 1), Date(year, m + 2, DaysInMonth(year, m + 2)))
  {
  }

  /** The four quarters tile the year: each ends the day before the next
      begins, the first starts on January 1 and the last ends on
      December 31. */
  lemma QuartersTileYear(year: int, month0: int, cs: string, ce: string)
    ensures SelectPeriod(Quarterly, year, month0, 1, cs, ce).start == Date(year, 1, 1)
    ensures SelectPeriod(Quarterly, year, month0, 4, cs, ce).end == Date(year, 12, 31)
    ensures forall q :: 1 <= q < 4 ==>
      NextDay(SelectPeriod(Quarterly, year, month0, q, cs, ce).end)
        == SelectPeriod(Quarterly, year, month0, q + 1, cs, ce).start
  {
    forall q | 1 <= q < 4
      ensures NextDay(SelectPeriod(Quarterly, year, month0, q, cs, ce).end)
              == SelectPeriod(Quarterly, year, month0, q + 1, cs, ce).start
    {
      QuarterBounds(year, month0, q, cs, ce);
      QuarterBounds(year, month0, q + 1, cs, ce);
    }
    QuarterBounds(year, month0, 1, cs, ce);
    QuarterBounds(year, month0, 4, cs, ce);
  }

  /** A monthly period is the whole selected month; for December the next
      period begins on January 1 of the following year. */
  lemma MonthBounds(year: int, month0: int, cs: string, ce: string)
    requires 0 <= month0 < 12
    ensures var p := SelectPeriod(Monthly, year, month0, 1, cs, ce);
      && p.start == Date(year, month0 + 1, 1)
      && p.end == Date(year, month0 + 1, DaysInMonth(year, month0 + 1))
      && NextDay(p.end) == SelectPeriod(Monthly, year, month0 + 1, 1, cs, ce).start
  {
  }

  /** The yearly period is the same as the span of its four quarters. */
  lemma YearIsFourQuarters(year: int, month0: int, cs: string, ce: string)
    ensures SelectPeriod(Yearly, year, month0, 1, cs, ce).start == SelectPeriod(Quarterly, year, month0, 1, cs, ce).start
    ensures SelectPeriod(Yearly, year, month0, 1, cs, ce).end == SelectPeriod(Quarterly, year, month0, 4, cs, ce).end
  {
    QuarterBounds(year, month0, 1, cs, ce);
    QuarterBounds(year, month0, 4, cs, ce);
  }
}
