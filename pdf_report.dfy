/** The monthly report document (src/utils/pdfGenerator.ts).

    The PDF library is modelled as a log of text events, each recording the
    page it lands on, its column `x`, its vertical cursor position `y` and the
    text. Fonts and colours are left out. Amounts are printed through an
    abstract two-decimal formatter `fmt` (the source's `toFixed(2)`).

    The model has three layers:
    - `ReportCells` says WHAT the document contains, section by section, in
      order. It ignores where the page breaks fall.
    - `ReportWriter` walks the cursor down the page the way the source does. A
      page is added whenever the next block would cross the bottom margin.
    - `GeneratePdf` runs the writer. It is proved to emit exactly
      `ReportCells` and to keep every table row above the bottom margin. */
module PdfReport {
  import opened Common
  import opened Text
  import opened Entries

  /** Left margin, bottom margin and the top of a fresh page. */
  const Margin: real := 20.0
  const RowHeight: real := 8.0

  const Title := "Upwork Monthly Income Report"
  const IncomeHeading := "Income Entries"
  const NoIncome := "No income entries recorded."
  const ExpenseHeading := "Expense Entries"
  const NoExpenses := "No expense entries recorded."
  const SummaryHeading := "Financial Summary"
  const ProfitHeading := "Profit Sharing"

  /** What the dashboard hands to the generator. */
  datatype ReportData = ReportData(
    month: string,
    year: int,
    incomeEntries: seq<IncomeEntry>,
    costEntries: seq<CostEntry>,
    collaborators: seq<Collaborator>,
    totalIncome: real,
    totalCosts: real,
    netProfit: real)

  /** One `pdf.text(text, x, y)` call, on the page that was current. */
  datatype TextEvent = TextEvent(page: nat, x: real, y: real, text: string)

  /** The content of an event once its position on the page is forgotten. */
  datatype Cell = Cell(x: real, text: string)

  function Cells(events: seq<TextEvent>): seq<Cell>
  {
    seq(|events|, i requires 0 <= i < |events| => Cell(events[i].x, events[i].text))
  }

  lemma CellsAppendOne(events: seq<TextEvent>, e: TextEvent)
    ensures Cells(events + [e]) == Cells(events) + [Cell(e.x, e.text)]
  {
  }

  // ---------------------------------------------------------------------
  // The content of the document

  function PeriodLine(month: string, year: int): string
  {
    month + " " + IntToString(year)
  }

  function IncomeColumns(): seq<Cell>
  {
    [Cell(Margin, "Date"), Cell(Margin + 30.0, "Job Title"), Cell(Margin + 80.0, "Client Name"),
     Cell(Margin + 130.0, "Amount ($)")]
  }

  /** One income row: the job title and client name are cut to 25
      characters. */
  function IncomeRow(e: IncomeEntry, fmt: real -> string): seq<Cell>
  {
    [Cell(Margin, e.data.date), Cell(Margin + 30.0, Truncate(e.data.jobTitle, 25)),
     Cell(Margin + 80.0, Truncate(e.data.clientName, 25)), Cell(Margin + 130.0, fmt(e.data.billAmount))]
  }

  function IncomeRows(entries: seq<IncomeEntry>, fmt: real -> string): (r: seq<Cell>)
    ensures |r| == 4 * |entries|
  {
    if entries == [] then []
    else IncomeRows(entries[..|entries| - 1], fmt) + IncomeRow(entries[|entries| - 1], fmt)
  }

  /** The heading, then a placeholder for an empty list, or the column headers
      followed by one row per entry. */
  function IncomeSection(entries: seq<IncomeEntry>, fmt: real -> string): (r: seq<Cell>)
    ensures |r| == if entries == [] then 2 else 5 + 4 * |entries|
    ensures r[0] == Cell(Margin, IncomeHeading)
  {
    [Cell(Margin, IncomeHeading)]
      + (if entries == [] then [Cell(Margin, NoIncome)] else IncomeColumns() + IncomeRows(entries, fmt))
  }

  function ExpenseColumns(): seq<Cell>
  {
    [Cell(Margin, "Date"), Cell(Margin + 30.0, "Description"), Cell(Margin + 130.0, "Amount ($)")]
  }

  /** One expense row: the title is cut to 50 characters. */
  function ExpenseRow(e: CostEntry, fmt: real -> string): seq<Cell>
  {
    [Cell(Margin, e.data.date), Cell(Margin + 30.0, Truncate(e.data.costTitle, 50)),
     Cell(Margin + 130.0, fmt(e.data.costAmount))]
  }

  function ExpenseRows(entries: seq<CostEntry>, fmt: real -> string): (r: seq<Cell>)
    ensures |r| == 3 * |entries|
  {
    if entries == [] then []
    else ExpenseRows(entries[..|entries| - 1], fmt) + ExpenseRow(entries[|entries| - 1], fmt)
  }

  function ExpenseSection(entries: seq<CostEntry>, fmt: real -> string): (r: seq<Cell>)
    ensures |r| == if entries == [] then 2 else 4 + 3 * |entries|
    ensures r[0] == Cell(Margin, ExpenseHeading)
  {
    [Cell(Margin, ExpenseHeading)]
      + (if entries == [] then [Cell(Margin, NoExpenses)] else ExpenseColumns() + ExpenseRows(entries, fmt))
  }

  function SummarySection(data: ReportData, fmt: real -> string): seq<Cell>
  {
    [Cell(Margin, SummaryHeading),
     Cell(Margin, "Total Income: $" + fmt(data.totalIncome)),
     Cell(Margin, "Total Expenses: $" + fmt(data.totalCosts)),
     Cell(Margin, "Net Profit: $" + fmt(data.netProfit))]
  }

  /** A collaborator's part of the net profit, `netProfit * pct / 100`. The
      source does not clamp it: a loss gives negative shares. */
  function Share(netProfit: real, sharePercentage: int): real
  {
    netProfit * (sharePercentage as real) / 100.0
  }

  function ProfitLine(c: Collaborator, netProfit: real, fmt: real -> string): string
  {
    c.name + ": " + IntToString(c.sharePercentage) + "% = $" + fmt(Share(netProfit, c.sharePercentage))
  }

  predicate IsNamed(c: Collaborator)
  {
    c.name != ""
  }

  /** One line per collaborator with a non-empty name, in list order. */
  function ProfitLines(cs: seq<Collaborator>, netProfit: real, fmt: real -> string): seq<Cell>
  {
    if cs == [] then []
    else
      var last := cs[|cs| - 1];
      ProfitLines(cs[..|cs| - 1], netProfit, fmt)
        + (if IsNamed(last) then [Cell(Margin, ProfitLine(last, netProfit, fmt))] else [])
  }

  /** Present only when the collaborator list is non-empty. */
  function ProfitSection(cs: seq<Collaborator>, netProfit: real, fmt: real -> string): seq<Cell>
  {
    if cs == [] then [] else [Cell(Margin, ProfitHeading)] + ProfitLines(cs, netProfit, fmt)
  }

  function FooterText(today: string): string
  {
    "Generated on " + today
  }

  /** The whole document in reading order. `today` stands for the footer's
      `new Date().toLocaleDateString()`. */
  function ReportCells(data: ReportData, fmt: real -> string, today: string): seq<Cell>
  {
    BodyCells(data, fmt) + [Cell(Margin, FooterText(today))]
  }

  /** Everything above the footer. */
  function BodyCells(data: ReportData, fmt: real -> string): seq<Cell>
  {
    [Cell(Margin, Title), Cell(Margin, PeriodLine(data.month, data.year))]
      + IncomeSection(data.incomeEntries, fmt)
      + ExpenseSection(data.costEntries, fmt)
      + SummarySection(data, fmt)
      + ProfitSection(data.collaborators, data.netProfit, fmt)
  }

  /** `Upwork_Report_<month>_<year>.pdf`. */
  function ReportFileName(month: string, year: int): string
  {
    "Upwork_Report_" + month + "_" + IntToString(year) + ".pdf"
  }

  // ---------------------------------------------------------------------
  // Properties of the content

  /** The k-th income entry is the k-th block of four cells, and its texts
      are the entry's date, the first 25 characters of the job title and of
      the client name, and the formatted amount. */
  lemma {:induction false} IncomeRowsAt(entries: seq<IncomeEntry>, fmt: real -> string, k: nat)
    requires k < |entries|
    ensures IncomeRows(entries, fmt)[4 * k .. 4 * k + 4] == IncomeRow(entries[k], fmt)
    ensures IncomeRows(entries, fmt)[4 * k + 1].text == Truncate(entries[k].data.jobTitle, 25)
    ensures IncomeRows(entries, fmt)[4 * k + 2].text == Truncate(entries[k].data.clientName, 25)
  {
    var init := entries[..|entries| - 1];
    var rows := IncomeRows(entries, fmt);
    if k < |init| {
      IncomeRowsAt(init, fmt, k);
      assert rows[4 * k .. 4 * k + 4] == IncomeRows(init, fmt)[4 * k .. 4 * k + 4];
    } else {
      assert rows[4 * k ..] == IncomeRow(entries[k], fmt);
    }
  }

  /** The k-th cost entry is the k-th block of three cells; its description
      is the first 50 characters of the title. */
  lemma {:induction false} ExpenseRowsAt(entries: seq<CostEntry>, fmt: real -> string, k: nat)
    requires k < |entries|
    ensures ExpenseRows(entries, fmt)[3 * k .. 3 * k + 3] == ExpenseRow(entries[k], fmt)
    ensures ExpenseRows(entries, fmt)[3 * k + 1].text == Truncate(entries[k].data.costTitle, 50)
  {
    var init := entries[..|entries| - 1];
    var rows := ExpenseRows(entries, fmt);
    if k < |init| {
      ExpenseRowsAt(init, fmt, k);
      assert rows[3 * k .. 3 * k + 3] == ExpenseRows(init, fmt)[3 * k .. 3 * k + 3];
    } else {
      assert rows[3 * k ..] == ExpenseRow(entries[k], fmt);
    }
  }

  /** An empty list shows only its heading and the placeholder; a non-empty
      list never shows the placeholder line and starts with its column
      headers. */
  lemma IncomePlaceholder(entries: seq<IncomeEntry>, fmt: real -> string)
    ensures entries == [] ==> IncomeSection(entries, fmt) == [Cell(Margin, IncomeHeading), Cell(Margin, NoIncome)]
    ensures entries != [] ==> IncomeSection(entries, fmt)[1..5] == IncomeColumns()
  {
  }

  lemma ExpensePlaceholder(entries: seq<CostEntry>, fmt: real -> string)
    ensures entries == [] ==> ExpenseSection(entries, fmt) == [Cell(Margin, ExpenseHeading), Cell(Margin, NoExpenses)]
    ensures entries != [] ==> ExpenseSection(entries, fmt)[1..4] == ExpenseColumns()
  {
  }

  /** The profit lines are exactly the named collaborators, in order. */
  lemma {:induction false} ProfitLinesAreNamed(cs: seq<Collaborator>, netProfit: real, fmt: real -> string)
    ensures var named := Filter(cs, IsNamed);
      |ProfitLines(cs, netProfit, fmt)| == |named|
      && forall k :: 0 <= k < |named| ==>
           ProfitLines(cs, netProfit, fmt)[k] == Cell(Margin, ProfitLine(named[k], netProfit, fmt))
  {
    if cs != [] {
      ProfitLinesAreNamed(cs[..|cs| - 1], netProfit, fmt);
    }
  }

  /** The Profit Sharing heading appears exactly when there are
      collaborators. */
  lemma ProfitHeadingIffCollaborators(cs: seq<Collaborator>, netProfit: real, fmt: real -> string)
    ensures |ProfitSection(cs, netProfit, fmt)| > 0 <==> cs != []
    ensures cs != [] ==> ProfitSection(cs, netProfit, fmt)[0] == Cell(Margin, ProfitHeading)
  {
  }

  /** The sections come in the fixed order title, period, income, expenses,
      summary, profit sharing, footer. */
  lemma SectionOrder(data: ReportData, fmt: real -> string, today: string)
    ensures var r := ReportCells(data, fmt, today);
      var expenseAt := 2 + |IncomeSection(data.incomeEntries, fmt)|;
      var summaryAt := expenseAt + |ExpenseSection(data.costEntries, fmt)|;
      && r[0] == Cell(Margin, Title)
      && r[1] == Cell(Margin, PeriodLine(data.month, data.year))
      && r[2] == Cell(Margin, IncomeHeading)
      && r[expenseAt] == Cell(Margin, ExpenseHeading)
      && r[summaryAt] == Cell(Margin, SummaryHeading)
      && (data.collaborators != [] ==> r[summaryAt + 4] == Cell(Margin, ProfitHeading))
      && r[|r| - 1] == Cell(Margin, FooterText(today))
      && |r| == summaryAt + 5 + |ProfitSection(data.collaborators, data.netProfit, fmt)|
  {
    var r := ReportCells(data, fmt, today);
    var inc := IncomeSection(data.incomeEntries, fmt);
    var exp := ExpenseSection(data.costEntries, fmt);
    var sum := SummarySection(data, fmt);
    var prof := ProfitSection(data.collaborators, data.netProfit, fmt);
    var head := [Cell(Margin, Title), Cell(Margin, PeriodLine(data.month, data.year))];
    assert r == head + inc + exp + sum + prof + [Cell(Margin, FooterText(today))];
    assert r[2 + |inc|] == exp[0];
    assert r[2 + |inc| + |exp|] == sum[0];
    if data.collaborators != [] {
      assert r[2 + |inc| + |exp| + 4] == prof[0];
    }
  }

  /** Sum of the profit shares over a list of collaborators. */
  function TotalShares(cs: seq<Collaborator>, netProfit: real): real
  {
    if cs == [] then 0.0 else TotalShares(cs[..|cs| - 1], netProfit) + Share(netProfit, cs[|cs| - 1].sharePercentage)
  }

  /** The shares add up to the same percentage of the net profit as the
      percentages add up to. */
  lemma {:induction false} TotalSharesProportional(cs: seq<Collaborator>, netProfit: real)
    ensures TotalShares(cs, netProfit) == netProfit * (SumInt(cs, SharePercentage) as real) / 100.0
  {
    if cs != [] {
      var init := cs[..|cs| - 1];
      TotalSharesProportional(init, netProfit);
      var p := SumInt(init, SharePercentage) as real;
      var q := cs[|cs| - 1].sharePercentage as real;
      assert netProfit * p / 100.0 + netProfit * q / 100.0 == netProfit * (p + q) / 100.0;
    }
  }

  /** When the percentages add up to 100, the shares distribute the net
      profit exactly. */
  lemma SharesDistributeProfit(cs: seq<Collaborator>, netProfit: real)
    requires SumInt(cs, SharePercentage) == 100
    ensures TotalShares(cs, netProfit) == netProfit
  {
    TotalSharesProportional(cs, netProfit);
  }

  /** No clamping: with a loss, every positive share is negative. */
  lemma LossGivesNegativeShares(netProfit: real, sharePercentage: int)
    requires netProfit < 0.0 && sharePercentage > 0
    ensures Share(netProfit, sharePercentage) < 0.0
  {
    var p := sharePercentage as real;
    assert netProfit * p < 0.0;
  }

  /** Reports for different years have different file names. */
  lemma FileNameDeterminesYear(month: string, y1: int, y2: int)
    requires ReportFileName(month, y1) == ReportFileName(month, y2)
    ensures y1 == y2
  {
    var prefix := "Upwork_Report_" + month + "_";
    var n1 := ReportFileName(month, y1);
    var n2 := ReportFileName(month, y2);
    assert n1 == prefix + IntToString(y1) + ".pdf";
    assert n1[|prefix|..|n1| - 4] == IntToString(y1);
    assert n2[|prefix|..|n2| - 4] == IntToString(y2);
    IntToStringInjective(y1, y2);
  }

  // ---------------------------------------------------------------------
  // The layout engine

  /** `e` was drawn no later than the cursor position (page, y). */
  predicate NotAfter(e: TextEvent, page: nat, y: real)
  {
    e.page < page || (e.page == page && e.y <= y)
  }

  /** The cursor only moves down a page, or on to a later page: each event
      is drawn no later than the one after it. */
  predicate Ordered(events: seq<TextEvent>)
  {
    if |events| <= 1 then true
    else
      var n := |events|;
      Ordered(events[..n - 1]) && NotAfter(events[n - 2], events[n - 1].page, events[n - 1].y)
  }

  /** In an ordered log no event is on a later page than the last one. */
  lemma {:induction false} OrderedPages(events: seq<TextEvent>)
    requires Ordered(events) && |events| >= 1
    ensures forall i :: 0 <= i < |events| ==> events[i].page <= events[|events| - 1].page
  {
    var n := |events|;
    if n > 1 {
      var init := events[..n - 1];
      OrderedPages(init);
      assert forall i :: 0 <= i < n - 1 ==> events[i] == init[i];
    }
  }

  /** Every event in `[lo, hi)` leaves room for a row above the bottom
      margin. */
  predicate RowsFit(events: seq<TextEvent>, lo: int, hi: int, pageHeight: real)
  {
    forall k :: 0 <= lo <= k < hi && k < |events| ==> events[k].y + RowHeight <= pageHeight - Margin
  }

  /** The generator's mutable state: the document so far, the current page
      and the `yPosition` cursor. */
  class ReportWriter {
    var events: seq<TextEvent>
    var page: nat
    var y: real
    const pageHeight: real

    ghost predicate Valid()
      reads this
    {
      && page >= 1
      && Ordered(events)
      && (|events| > 0 ==> NotAfter(events[|events| - 1], page, y))
    }

    constructor (pageHeight: real)
      ensures Valid()
      ensures this.pageHeight == pageHeight
      ensures events == [] && page == 1 && y == Margin
    {
      this.pageHeight := pageHeight;
      events := [];
      page := 1;
      y := Margin;
    }

    /** `checkPageBreak(required)`: a new page, and the cursor back at the
        top, exactly when the block would cross the bottom margin. */
    method CheckPageBreak(required: real)
      requires Valid()
      modifies this
      ensures Valid()
      ensures events == old(events)
      ensures if old(y) + required > pageHeight - Margin
              then page == old(page) + 1 && y == Margin
              else page == old(page) && y == old(y)
    {
      if y + required > pageHeight - Margin {
        page := page + 1;
        y := Margin;
      }
    }

    /** `pdf.text(text, x, yPosition)`. */
    method Write(x: real, text: string)
      requires Valid()
      modifies this
      ensures Valid()
      ensures events == old(events) + [TextEvent(page, x, y, text)]
      ensures Cells(events) == Cells(old(events)) + [Cell(x, text)]
      ensures page == old(page) && y == old(y)
    {
      CellsAppendOne(events, TextEvent(page, x, y, text));
      assert (events + [TextEvent(page, x, y, text)])[..|events|] == events;
      events := events + [TextEvent(page, x, y, text)];
    }

    /** Moves the cursor down. */
    method Advance(dy: real)
      requires Valid() && dy >= 0.0
      modifies this
      ensures Valid()
      ensures events == old(events) && page == old(page) && y == old(y) + dy
    {
      y := y + dy;
    }

    /** The title and the "<month> <year>" line (lines 30-40). */
    method WriteHeading(month: string, year: int)
      requires Valid()
      modifies this
      ensures Valid()
      ensures events == old(events) + [TextEvent(old(page), Margin, old(y), Title),
                                       TextEvent(old(page), Margin, old(y) + 15.0, PeriodLine(month, year))]
      ensures Cells(events) == Cells(old(events)) + [Cell(Margin, Title), Cell(Margin, PeriodLine(month, year))]
    {
      Write(Margin, Title);
      Advance(15.0);
      Write(Margin, PeriodLine(month, year));
      Advance(20.0);
    }

    /** One income row (lines 69-74): a page check for a row's height, the
        four cells at the cursor, then the cursor moves down a row. */
    method WriteIncomeRow(e: IncomeEntry, fmt: real -> string)
      requires Valid()
      modifies this
      ensures Valid()
      ensures |events| == |old(events)| + 4
      ensures old(events) <= events
      ensures Cells(events) == Cells(old(events)) + IncomeRow(e, fmt)
      ensures pageHeight >= 48.0 ==> RowsFit(events, |old(events)|, |events|, pageHeight)
    {
      ghost var before := Cells(events);
      CheckPageBreak(RowHeight);
      Write(Margin, e.data.date);
      Write(Margin + 30.0, Truncate(e.data.jobTitle, 25));
      Write(Margin + 80.0, Truncate(e.data.clientName, 25));
      Write(Margin + 130.0, fmt(e.data.billAmount));
      assert Cells(events) == before + IncomeRow(e, fmt);
      Advance(RowHeight);
    }

    /** A section heading after a page check for the block that follows
        (lines 43-48, 81-86, 141-146). */
    method WriteSectionHeading(required: real, heading: string)
      requires Valid()
      modifies this
      ensures Valid()
      ensures |events| == |old(events)| + 1
      ensures old(events) <= events
      ensures Cells(events) == Cells(old(events)) + [Cell(Margin, heading)]
    {
      CheckPageBreak(required);
      Write(Margin, heading);
      Advance(10.0);
    }

    /** The placeholder line of an empty table (lines 54-56, 92-94). */
    method WritePlaceholder(text: string)
      requires Valid()
      modifies this
      ensures Valid()
      ensures |events| == |old(events)| + 1
      ensures old(events) <= events
      ensures Cells(events) == Cells(old(events)) + [Cell(Margin, text)]
    {
      Write(Margin, text);
      Advance(10.0);
    }

    /** The income column headers (lines 59-64). */
    method WriteIncomeColumns()
      requires Valid()
      modifies this
      ensures Valid()
      ensures |events| == |old(events)| + 4
      ensures old(events) <= events
      ensures Cells(events) == Cells(old(events)) + IncomeColumns()
    {
      ghost var before := Cells(events);
      Write(Margin, "Date");
      Write(Margin + 30.0, "Job Title");
      Write(Margin + 80.0, "Client Name");
      Write(Margin + 130.0, "Amount ($)");
      assert Cells(events) == before + IncomeColumns();
      Advance(8.0);
    }

    /** The income rows, one per entry in list order (lines 68-75). */
    method WriteIncomeRows(entries: seq<IncomeEntry>, fmt: real -> string)
      requires Valid()
      modifies this
      ensures Valid()
      ensures |events| == |old(events)| + 4 * |entries|
      ensures old(events) <= events
      ensures Cells(events) == Cells(old(events)) + IncomeRows(entries, fmt)
      ensures pageHeight >= 48.0 ==> RowsFit(events, |old(events)|, |events|, pageHeight)
    {
      ghost var n0 := |events|;
      ghost var before := Cells(events);
      var i := 0;
      while i < |entries|
        invariant 0 <= i <= |entries|
        invariant Valid()
        invariant |events| == n0 + 4 * i
        invariant old(events) <= events
        invariant Cells(events) == before + IncomeRows(entries[..i], fmt)
        invariant pageHeight >= 48.0 ==> RowsFit(events, n0, |events|, pageHeight)
      {
        WriteIncomeRow(entries[i], fmt);
        assert entries[..i + 1][..i] == entries[..i];
        i := i + 1;
      }
      assert entries[..i] == entries;
    }

    /** The income table (lines 42-78). */
    method WriteIncome(entries: seq<IncomeEntry>, fmt: real -> string)
      requires Valid()
      modifies this
      ensures Valid()
      ensures |events| >= |old(events)|
      ensures old(events) <= events
      ensures Cells(events) == Cells(old(events)) + IncomeSection(entries, fmt)
      ensures pageHeight >= 48.0 ==> RowsFit(events, |old(events)| + 5, |events|, pageHeight)
    {
      ghost var e0 := events;
      WriteSectionHeading(30.0, IncomeHeading);
      if entries == [] {
        WritePlaceholder(NoIncome);
      } else {
        ghost var e1 := events;
        WriteIncomeColumns();
        ghost var e2 := events;
        WriteIncomeRows(entries, fmt);
        assert |e2| == |e0| + 5;
        assert e0 <= e1 <= e2 <= events;
        assert Cells(events) == Cells(e0) + ([Cell(Margin, IncomeHeading)] + (IncomeColumns() + IncomeRows(entries, fmt)));
      }
      Advance(10.0);
    }

    /** One expense row (lines 106-110). */
    method WriteExpenseRow(e: CostEntry, fmt: real -> string)
      requires Valid()
      modifies this
      ensures Valid()
      ensures |events| == |old(events)| + 3
      ensures old(events) <= events
      ensures Cells(events) == Cells(old(events)) + ExpenseRow(e, fmt)
      ensures pageHeight >= 48.0 ==> RowsFit(events, |old(events)|, |events|, pageHeight)
    {
      ghost var before := Cells(events);
      CheckPageBreak(RowHeight);
      Write(Margin, e.data.date);
      Write(Margin + 30.0, Truncate(e.data.costTitle, 50));
      Write(Margin + 130.0, fmt(e.data.costAmount));
      assert Cells(events) == before + ExpenseRow(e, fmt);
      Advance(RowHeight);
    }

    /** The expense column headers (lines 97-101). */
    method WriteExpenseColumns()
      requires Valid()
      modifies this
      ensures Valid()
      ensures |events| == |old(events)| + 3
      ensures old(events) <= events
      ensures Cells(events) == Cells(old(events)) + ExpenseColumns()
    {
      ghost var before := Cells(events);
      Write(Margin, "Date");
      Write(Margin + 30.0, "Description");
      Write(Margin + 130.0, "Amount ($)");
      assert Cells(events) == before + ExpenseColumns();
      Advance(8.0);
    }

    /** The expense rows, one per entry in list order (lines 105-111). */
    method WriteExpenseRows(entries: seq<CostEntry>, fmt: real -> string)
      requires Valid()
      modifies this
      ensures Valid()
      ensures |events| == |old(events)| + 3 * |entries|
      ensures old(events) <= events
      ensures Cells(events) == Cells(old(events)) + ExpenseRows(entries, fmt)
      ensures pageHeight >= 48.0 ==> RowsFit(events, |old(events)|, |events|, pageHeight)
    {
      ghost var n0 := |events|;
      ghost var before := Cells(events);
      var i := 0;
      while i < |entries|
        invariant 0 <= i <= |entries|
        invariant Valid()
        invariant |events| == n0 + 3 * i
        invariant old(events) <= events
        invariant Cells(events) == before + ExpenseRows(entries[..i], fmt)
        invariant pageHeight >= 48.0 ==> RowsFit(events, n0, |events|, pageHeight)
      {
        WriteExpenseRow(entries[i], fmt);
        assert entries[..i + 1][..i] == entries[..i];
        i := i + 1;
      }
      assert entries[..i] == entries;
    }

    /** The expense table (lines 80-114). */
    method WriteExpenses(entries: seq<CostEntry>, fmt: real -> string)
      requires Valid()
      modifies this
      ensures Valid()
      ensures |events| >= |old(events)|
      ensures old(events) <= events
      ensures Cells(events) == Cells(old(events)) + ExpenseSection(entries, fmt)
      ensures pageHeight >= 48.0 ==> RowsFit(events, |old(events)| + 4, |events|, pageHeight)
    {
      ghost var e0 := events;
      WriteSectionHeading(30.0, ExpenseHeading);
      if entries == [] {
        WritePlaceholder(NoExpenses);
      } else {
        ghost var e1 := events;
        WriteExpenseColumns();
        ghost var e2 := events;
        WriteExpenseRows(entries, fmt);
        assert |e2| == |e0| + 4;
        assert e0 <= e1 <= e2 <= events;
        assert Cells(events) == Cells(e0) + ([Cell(Margin, ExpenseHeading)] + (ExpenseColumns() + ExpenseRows(entries, fmt)));
      }
      Advance(15.0);
    }

    /** The financial summary (lines 116-137). */
    method WriteSummary(data: ReportData, fmt: real -> string)
      requires Valid()
      modifies this
      ensures Valid()
      ensures |events| == |old(events)| + 4
      ensures old(events) <= events
      ensures Cells(events) == Cells(old(events)) + SummarySection(data, fmt)
    {
      ghost var before := Cells(events);
      CheckPageBreak(40.0);
      Write(Margin, SummaryHeading);
      Advance(15.0);
      Write(Margin, "Total Income: $" + fmt(data.totalIncome));
      Advance(8.0);
      Write(Margin, "Total Expenses: $" + fmt(data.totalCosts));
      Advance(8.0);
      Write(Margin, "Net Profit: $" + fmt(data.netProfit));
      Advance(15.0);
      assert Cells(events) == before + SummarySection(data, fmt);
    }

    /** One collaborator line (lines 154-157). */
    method WriteProfitLine(c: Collaborator, netProfit: real, fmt: real -> string)
      requires Valid()
      modifies this
      ensures Valid()
      ensures |events| == |old(events)| + 1
      ensures old(events) <= events
      ensures Cells(events) == Cells(old(events)) + [Cell(Margin, ProfitLine(c, netProfit, fmt))]
      ensures pageHeight >= 48.0 ==> RowsFit(events, |old(events)|, |events|, pageHeight)
    {
      CheckPageBreak(RowHeight);
      Write(Margin, ProfitLine(c, netProfit, fmt));
      Advance(RowHeight);
    }

    /** One line per named collaborator, in list order (lines 152-159). */
    method WriteProfitLines(cs: seq<Collaborator>, netProfit: real, fmt: real -> string)
      requires Valid()
      modifies this
      ensures Valid()
      ensures |events| >= |old(events)|
      ensures old(events) <= events
      ensures Cells(events) == Cells(old(events)) + ProfitLines(cs, netProfit, fmt)
      ensures pageHeight >= 48.0 ==> RowsFit(events, |old(events)|, |events|, pageHeight)
    {
      ghost var n0 := |events|;
      ghost var before := Cells(events);
      var i := 0;
      while i < |cs|
        invariant 0 <= i <= |cs|
        invariant Valid()
        invariant |events| >= n0
        invariant old(events) <= events
        invariant Cells(events) == before + ProfitLines(cs[..i], netProfit, fmt)
        invariant pageHeight >= 48.0 ==> RowsFit(events, n0, |events|, pageHeight)
      {
        ghost var prev := events;
        if IsNamed(cs[i]) {
          WriteProfitLine(cs[i], netProfit, fmt);
          if pageHeight >= 48.0 {
            RowsFitPrefix(prev, events, n0, |prev|, pageHeight);
          }
        }
        assert cs[..i + 1][..i] == cs[..i];
        assert ProfitLines(cs[..i + 1], netProfit, fmt)
          == ProfitLines(cs[..i], netProfit, fmt)
             + (if IsNamed(cs[i]) then [Cell(Margin, ProfitLine(cs[i], netProfit, fmt))] else []);
        i := i + 1;
      }
      assert cs[..i] == cs;
    }

    /** The profit-sharing block, only when there are collaborators (lines
        139-160). */
    method WriteProfitSharing(cs: seq<Collaborator>, netProfit: real, fmt: real -> string)
      requires Valid()
      modifies this
      ensures Valid()
      ensures |events| >= |old(events)|
      ensures old(events) <= events
      ensures Cells(events) == Cells(old(events)) + ProfitSection(cs, netProfit, fmt)
      ensures pageHeight >= 48.0 ==> RowsFit(events, |old(events)| + 1, |events|, pageHeight)
    {
      if |cs| > 0 {
        ghost var e0 := events;
        WriteSectionHeading(30.0, ProfitHeading);
        ghost var e1 := events;
        WriteProfitLines(cs, netProfit, fmt);
        assert e0 <= e1 <= events;
        assert Cells(events) == Cells(e0) + ([Cell(Margin, ProfitHeading)] + ProfitLines(cs, netProfit, fmt));
      }
    }

    /** The first page of a fresh document: the title block, the income
        table and the expense table (lines 30-114). */
    method WriteTitleAndTables(data: ReportData, fmt: real -> string)
      requires Valid() && events == [] && page == 1 && y == Margin
      modifies this
      ensures Valid()
      ensures |events| == 2 + |IncomeSection(data.incomeEntries, fmt)| + |ExpenseSection(data.costEntries, fmt)|
      ensures events[0] == TextEvent(1, Margin, Margin, Title)
      ensures events[1] == TextEvent(1, Margin, Margin + 15.0, PeriodLine(data.month, data.year))
      ensures Cells(events) == [Cell(Margin, Title), Cell(Margin, PeriodLine(data.month, data.year))]
                                + IncomeSection(data.incomeEntries, fmt) + ExpenseSection(data.costEntries, fmt)
      ensures pageHeight >= 48.0 ==>
        var incomeLen := |IncomeSection(data.incomeEntries, fmt)|;
        && RowsFit(events, 7, 7 + 4 * |data.incomeEntries|, pageHeight)
        && RowsFit(events, 2 + incomeLen + 4, 2 + incomeLen + 4 + 3 * |data.costEntries|, pageHeight)
    {
      WriteHeading(data.month, data.year);
      ghost var e1 := events;
      ghost var head := [Cell(Margin, Title), Cell(Margin, PeriodLine(data.month, data.year))];
      assert e1 == [TextEvent(1, Margin, Margin, Title), TextEvent(1, Margin, Margin + 15.0, PeriodLine(data.month, data.year))];
      assert Cells(e1) == head;
      WriteIncome(data.incomeEntries, fmt);
      ghost var e2 := events;
      assert Cells(e2) == head + IncomeSection(data.incomeEntries, fmt);
      WriteExpenses(data.costEntries, fmt);
      assert |e2| == 2 + |IncomeSection(data.incomeEntries, fmt)| by {
        assert |Cells(e2)| == |e2|;
      }
      assert |events| == |e2| + |ExpenseSection(data.costEntries, fmt)| by {
        assert |Cells(events)| == |events|;
      }
      assert e2 <= events;
      assert events[0] == e1[0] && events[1] == e1[1];
      if pageHeight >= 48.0 {
        RowsFitPrefix(e2, events, 7, 7 + 4 * |data.incomeEntries|, pageHeight);
      }
    }

    /** Everything above the footer, on a fresh document (lines 30-160). */
    method WriteBody(data: ReportData, fmt: real -> string)
      requires Valid() && events == [] && page == 1 && y == Margin
      modifies this
      ensures Valid()
      ensures Cells(events) == BodyCells(data, fmt)
      ensures |events| >= 2
      ensures events[0] == TextEvent(1, Margin, Margin, Title)
      ensures events[1] == TextEvent(1, Margin, Margin + 15.0, PeriodLine(data.month, data.year))
      ensures pageHeight >= 48.0 ==> RowsPlaced(events, data, fmt, pageHeight)
    {
      WriteTitleAndTables(data, fmt);
      ghost var afterTables := events;
      WriteSummary(data, fmt);
      ghost var afterSummary := events;
      WriteProfitSharing(data.collaborators, data.netProfit, fmt);
      assert |events| == |afterSummary| + |ProfitSection(data.collaborators, data.netProfit, fmt)| by {
        assert |Cells(events)| == |events|;
        assert |Cells(afterSummary)| == |afterSummary|;
      }
      assert afterTables <= afterSummary <= events;
      if pageHeight >= 48.0 {
        var incomeLen := |IncomeSection(data.incomeEntries, fmt)|;
        RowsFitPrefix(afterTables, events, 7, 7 + 4 * |data.incomeEntries|, pageHeight);
        RowsFitPrefix(afterTables, events, 2 + incomeLen + 4, 2 + incomeLen + 4 + 3 * |data.costEntries|, pageHeight);
      }
    }

    /** The footer, at a fixed distance from the bottom of the current page
        (line 165). It is the last event, so the cursor order no longer
        matters afterwards. */
    method WriteFooter(today: string)
      requires Valid()
      modifies this
      ensures events == old(events) + [TextEvent(old(page), Margin, pageHeight - 10.0, FooterText(today))]
      ensures Cells(events) == Cells(old(events)) + [Cell(Margin, FooterText(today))]
      ensures page == old(page)
    {
      CellsAppendOne(events, TextEvent(page, Margin, pageHeight - 10.0, FooterText(today)));
      events := events + [TextEvent(page, Margin, pageHeight - 10.0, FooterText(today))];
    }
  }

  /** `generatePDF(data)`: the events of the document and the name it is saved
      under. `pageHeight` is the page size the PDF library reports. */
  method GeneratePdf(data: ReportData, pageHeight: real, fmt: real -> string, today: string)
    returns (events: seq<TextEvent>, fileName: string)
    ensures Cells(events) == ReportCells(data, fmt, today)
    ensures fileName == ReportFileName(data.month, data.year)
    ensures |events| >= 3
    ensures events[0] == TextEvent(1, Margin, Margin, Title)
    ensures events[1] == TextEvent(1, Margin, Margin + 15.0, PeriodLine(data.month, data.year))
    ensures Ordered(events[..|events| - 1])
    ensures var footer := events[|events| - 1];
      footer.y == pageHeight - 10.0 && forall i :: 0 <= i < |events| ==> events[i].page <= footer.page
    ensures pageHeight >= 48.0 ==> RowsPlaced(events, data, fmt, pageHeight)
  {
    var w := new ReportWriter(pageHeight);
    w.WriteBody(data, fmt);
    ghost var body := w.events;
    w.WriteFooter(today);
    events := w.events;
    fileName := ReportFileName(data.month, data.year);
    FooterIsLast(body, events[|events| - 1]);
    if pageHeight >= 48.0 {
      RowsPlacedExtends(body, events[|events| - 1], data, fmt, pageHeight);
    }
  }

  /** A footer drawn on the body's last page or later is on the last page
      of the document. */
  lemma FooterIsLast(body: seq<TextEvent>, footer: TextEvent)
    requires Ordered(body) && |body| >= 1 && body[|body| - 1].page <= footer.page
    ensures (body + [footer])[..|body|] == body
    ensures forall i :: 0 <= i < |body| + 1 ==> (body + [footer])[i].page <= footer.page
  {
    OrderedPages(body);
    assert (body + [footer])[..|body|] == body;
  }

  /** Every income row, every expense row and every profit-sharing line of
      the document leaves room for a row above the bottom margin. The
      income rows follow the two heading lines, the section heading and the
      column headers (7 events); the expense rows follow the income
      section, their heading and their column headers; the profit lines
      follow the summary (4 events) and their heading. */
  predicate RowsPlaced(events: seq<TextEvent>, data: ReportData, fmt: real -> string, pageHeight: real)
  {
    var incomeLen := |IncomeSection(data.incomeEntries, fmt)|;
    var expenseLen := |ExpenseSection(data.costEntries, fmt)|;
    && RowsFit(events, 7, 7 + 4 * |data.incomeEntries|, pageHeight)
    && RowsFit(events, 2 + incomeLen + 4, 2 + incomeLen + 4 + 3 * |data.costEntries|, pageHeight)
    && RowsFit(events, 2 + incomeLen + expenseLen + 4 + 1,
               2 + incomeLen + expenseLen + 4 + |ProfitSection(data.collaborators, data.netProfit, fmt)|, pageHeight)
  }

  /** Adding the footer after the body keeps the rows where they were. */
  lemma RowsPlacedExtends(body: seq<TextEvent>, footer: TextEvent, data: ReportData, fmt: real -> string, pageHeight: real)
    requires |body| == |BodyCells(data, fmt)| && RowsPlaced(body, data, fmt, pageHeight)
    ensures RowsPlaced(body + [footer], data, fmt, pageHeight)
  {
    var incomeLen := |IncomeSection(data.incomeEntries, fmt)|;
    var expenseLen := |ExpenseSection(data.costEntries, fmt)|;
    var events := body + [footer];
    assert body <= events;
    RowsFitPrefix(body, events, 7, 7 + 4 * |data.incomeEntries|, pageHeight);
    RowsFitPrefix(body, events, 2 + incomeLen + 4, 2 + incomeLen + 4 + 3 * |data.costEntries|, pageHeight);
    RowsFitPrefix(body, events, 2 + incomeLen + expenseLen + 4 + 1,
                  2 + incomeLen + expenseLen + 4 + |ProfitSection(data.collaborators, data.netProfit, fmt)|, pageHeight);
  }

  /** Row placement carries over to any log that extends the one it was
      established on. */
  lemma RowsFitPrefix(a: seq<TextEvent>, b: seq<TextEvent>, lo: int, hi: int, pageHeight: real)
    requires a <= b
    requires (hi <= |a| || hi <= lo) && RowsFit(a, lo, hi, pageHeight)
    ensures RowsFit(b, lo, hi, pageHeight)
  {
  }
}
