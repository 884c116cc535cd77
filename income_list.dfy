/** The income list page (src/pages/IncomeList.tsx): the three totals above
    the table, the badge colour lookups, the pie chart's data, and the form
    state behind the add/edit dialog. */
module IncomeList {
  import opened Common
  import opened Text
  import opened Records

  // ---------------------------------------------------------------------
  // Totals (lines 112-116)

  function TotalIncome(entries: seq<Income>): real
  {
    Sum(entries, IncomeAmount)
  }

  predicate IsPaid(e: Income) { e.paymentStatus == "paid" }
  predicate IsPending(e: Income) { e.paymentStatus == "pending" }

  function PaidIncome(entries: seq<Income>): real
  {
    Sum(Filter(entries, IsPaid), IncomeAmount)
  }

  function PendingIncome(entries: seq<Income>): real
  {
    Sum(Filter(entries, IsPending), IncomeAmount)
  }

  /** Paid and pending select different entries, so with non-negative
      amounts they add up to at most the total; the remainder is what is
      overdue (or has any other status). */
  lemma PaidAndPendingWithinTotal(entries: seq<Income>)
    requires forall e :: e in entries ==> e.amount >= 0.0
    ensures PaidIncome(entries) + PendingIncome(entries) <= TotalIncome(entries)
  {
    DisjointFilterSums(entries, IsPaid, IsPending, IncomeAmount);
  }

  /** The paid figure is the "paid" slice of the payment-status breakdown the
      reports page computes with its reducer. */
  lemma PaidIsStatusTotal(entries: seq<Income>)
    ensures PaidIncome(entries) == KeyTotal(entries, IncomeStatus, IncomeAmount, "paid")
    ensures PendingIncome(entries) == KeyTotal(entries, IncomeStatus, IncomeAmount, "pending")
  {
    KeyTotalIsFilteredSum(entries, IncomeStatus, IncomeAmount, "paid", IsPaid);
    KeyTotalIsFilteredSum(entries, IncomeStatus, IncomeAmount, "pending", IsPending);
  }

  // ---------------------------------------------------------------------
  // Badge colours (lines 118-141)

  const DefaultColor := "bg-gray-100 text-gray-800"

  /** `getStatusColor`: the three known statuses have their own colour,
      anything else is grey. */
  function StatusColor(status: string): (c: string)
    ensures status == "paid" ==> c == "bg-green-100 text-green-800"
    ensures status == "pending" ==> c == "bg-yellow-100 text-yellow-800"
    ensures status == "overdue" ==> c == "bg-red-100 text-red-800"
    ensures c == DefaultColor <==> status != "paid" && status != "pending" && status != "overdue"
  {
    match status
    case "paid" => "bg-green-100 text-green-800"
    case "pending" => "bg-yellow-100 text-yellow-800"
    case "overdue" => "bg-red-100 text-red-800"
    case _ => DefaultColor
  }

  const CategoryColors: map<string, string> := map[
    "Web Development" := "bg-blue-100 text-blue-800",
    "Design" := "bg-purple-100 text-purple-800",
    "Mobile Development" := "bg-green-100 text-green-800",
    "Backend Development" := "bg-orange-100 text-orange-800",
    "Consulting" := "bg-pink-100 text-pink-800",
    "Content Writing" := "bg-indigo-100 text-indigo-800",
    "SEO" := "bg-teal-100 text-teal-800",
    "Marketing" := "bg-cyan-100 text-cyan-800",
    "Data Analysis" := "bg-violet-100 text-violet-800",
    "Other" := DefaultColor]

  /** `getCategoryColor`: the colour table's entry, or grey for a category
      the table does not have. */
  function CategoryColor(category: string): (c: string)
    ensures category in CategoryColors ==> c == CategoryColors[category]
    ensures category !in CategoryColors ==> c == DefaultColor
  {
    if category in CategoryColors then CategoryColors[category] else DefaultColor
  }

  /** Only "Other" among the listed categories shares the grey of unknown
      ones, so a grey badge means "Other" or a category not in the list. */
  lemma GreyCategories(category: string)
    ensures CategoryColor(category) == DefaultColor <==> category == "Other" || category !in Categories
  {
    assert CategoryColors.Keys == set c | c in Categories;
  }

  // ---------------------------------------------------------------------
  // Chart data (lines 76, 143-147)

  /** The category options, in display order. */
  const Categories: seq<string> := ["Web Development", "Design", "Mobile Development", "Backend Development",
                                    "Consulting", "Content Writing", "SEO", "Marketing", "Data Analysis", "Other"]

  datatype ChartPoint = ChartPoint(name: string, value: real)

  function PointValue(p: ChartPoint): real { p.value }
  predicate IsPositive(p: ChartPoint) { p.value > 0.0 }

  function InCategory(c: string): Income -> bool
  {
    (e: Income) => e.category == c
  }

  /** `filteredEntries.filter(e => e.category === c).reduce(sum)`. */
  function CategoryTotal(entries: seq<Income>, c: string): real
  {
    Sum(Filter(entries, InCategory(c)), IncomeAmount)
  }

  /** `categories.map(c => ({name: c, value: …}))`. */
  function CategoryPoints(cats: seq<string>, entries: seq<Income>): (r: seq<ChartPoint>)
    ensures |r| == |cats|
    ensures forall i :: 0 <= i < |cats| ==> r[i] == ChartPoint(cats[i], CategoryTotal(entries, cats[i]))
  {
    if cats == [] then []
    else
      var c := cats[|cats| - 1];
      CategoryPoints(cats[..|cats| - 1], entries) + [ChartPoint(c, CategoryTotal(entries, c))]
  }

  /** `chartData`: the mapped points with a positive value. */
  function ChartData(cats: seq<string>, entries: seq<Income>): (r: seq<ChartPoint>)
    ensures forall i :: 0 <= i < |r| ==>
      r[i].name in cats && r[i].value > 0.0 && r[i].value == CategoryTotal(entries, r[i].name)
    ensures forall i :: 0 <= i < |cats| && CategoryTotal(entries, cats[i]) > 0.0 ==>
      ChartPoint(cats[i], CategoryTotal(entries, cats[i])) in r
  {
    var points := CategoryPoints(cats, entries);
    assert forall p :: p in points ==> p.name in cats && p.value == CategoryTotal(entries, p.name);
    Filter(points, IsPositive)
  }

  /** The slices come in the order of the category list. */
  lemma ChartInCategoryOrder(cats: seq<string>, entries: seq<Income>, i: int, j: int)
    requires 0 <= i < j < |ChartData(cats, entries)|
    ensures exists a, b :: 0 <= a < b < |cats| && cats[a] == ChartData(cats, entries)[i].name
                                                  && cats[b] == ChartData(cats, entries)[j].name
  {
    NamesKeepOrder(cats, CategoryPoints(cats, entries), i, j);
  }

  /** Filtering points named after a list keeps the list's order. */
  lemma NamesKeepOrder(cats: seq<string>, points: seq<ChartPoint>, i: int, j: int)
    requires |points| == |cats| && forall k :: 0 <= k < |cats| ==> points[k].name == cats[k]
    requires 0 <= i < j < |Filter(points, IsPositive)|
    ensures exists a, b :: 0 <= a < b < |cats| && cats[a] == Filter(points, IsPositive)[i].name
                                                && cats[b] == Filter(points, IsPositive)[j].name
  {
    FilterKeepsOrder(points, IsPositive, i, j);
    var a, b :| 0 <= a < b < |points| && points[a] == Filter(points, IsPositive)[i]
                                        && points[b] == Filter(points, IsPositive)[j];
    assert cats[a] == points[a].name && cats[b] == points[b].name;
  }

  /** The category total is the group total by category. */
  lemma CategoryTotalIsGroupTotal(entries: seq<Income>, c: string)
    ensures CategoryTotal(entries, c) == KeyTotal(entries, IncomeCategory, IncomeAmount, c)
  {
    KeyTotalIsFilteredSum(entries, IncomeCategory, IncomeAmount, c, InCategory(c));
  }

  lemma {:induction false} CategoryPointsSum(cats: seq<string>, entries: seq<Income>)
    ensures Sum(CategoryPoints(cats, entries), PointValue) == SumKeyTotals(cats, entries, IncomeCategory, IncomeAmount)
  {
    if cats != [] {
      var init := cats[..|cats| - 1];
      var c := cats[|cats| - 1];
      CategoryPointsSum(init, entries);
      CategoryTotalIsGroupTotal(entries, c);
      var points := CategoryPoints(cats, entries);
      assert points[..|points| - 1] == CategoryPoints(init, entries);
    }
  }

  /** The category options are pairwise different. */
  lemma CategoriesDistinct()
    ensures forall i, j :: 0 <= i < j < |Categories| ==> Categories[i] != Categories[j]
  {
  }

  /** With non-negative amounts the slices `chartData` drops are worth 0, so
      the chart adds up to the same as the mapped points. */
  lemma ChartSumOfPoints(cats: seq<string>, entries: seq<Income>)
    requires forall i :: 0 <= i < |entries| ==> entries[i].amount >= 0.0
    ensures Sum(ChartData(cats, entries), PointValue) == Sum(CategoryPoints(cats, entries), PointValue)
  {
    var points := CategoryPoints(cats, entries);
    forall i | 0 <= i < |points| && !IsPositive(points[i])
      ensures PointValue(points[i]) == 0.0
    {
      CategoryTotalIsGroupTotal(entries, cats[i]);
      KeyTotalNonNegative(entries, IncomeCategory, IncomeAmount, cats[i]);
    }
    SumDropsZeros(points, IsPositive, PointValue);
  }

  /** When every entry has a listed category and no amount is negative, the
      pie chart shows the whole total income: the dropped slices are the
      empty ones. */
  lemma ChartCoversTotal(entries: seq<Income>)
    requires forall i :: 0 <= i < |entries| ==> entries[i].category in Categories
    requires forall i :: 0 <= i < |entries| ==> entries[i].amount >= 0.0
    ensures Sum(ChartData(Categories, entries), PointValue) == TotalIncome(entries)
  {
    ChartSumOfPoints(Categories, entries);
    CategoryPointsSum(Categories, entries);
    CategoriesDistinct();
    SumKeyTotalsCovering(Categories, entries, IncomeCategory, IncomeAmount);
  }

  // ---------------------------------------------------------------------
  // The add/edit dialog (lines 60-69, 165-212, 587)

  datatype IncomeForm = IncomeForm(
    jobTitle: string,
    clientName: string,
    amount: real,
    category: string,
    paymentStatus: string,
    date: string,
    currency: string,
    description: string)

  /** The empty form; `today` stands for `new Date().toISOString().split('T')[0]`. */
  function DefaultForm(today: string): (f: IncomeForm)
    ensures f.amount == 0.0 && f.category == "Web Development" && f.paymentStatus == "pending"
    ensures f.currency == "USD" && f.date == today
    ensures f.jobTitle == "" && f.clientName == "" && f.description == ""
  {
    IncomeForm("", "", 0.0, "Web Development", "pending", today, "USD", "")
  }

  /** What the page sends: an update of the edited record, or a new one. */
  datatype SaveRequest = Create(form: IncomeForm) | Update(id: string, form: IncomeForm)

  datatype PageState = PageState(form: IncomeForm, editing: Option<Income>, dialogOpen: bool)

  /** `handleEditIncome`: remember the record, copy its fields into the form
      with the date cut at the first `T`, open the dialog. */
  function EditIncome(s: PageState, income: Income): (r: PageState)
    ensures r.editing == Some(income) && r.dialogOpen
    ensures r.form.jobTitle == income.jobTitle && r.form.clientName == income.clientName
    ensures r.form.amount == income.amount && r.form.category == income.category
    ensures r.form.paymentStatus == income.paymentStatus && r.form.currency == income.currency
    ensures r.form.date == BeforeFirst(income.date, 'T')
    ensures income.description.Some? ==> r.form.description == income.description.value
    ensures income.description.None? ==> r.form.description == ""
  {
    var description := if income.description.Some? then income.description.value else "";
    PageState(
      IncomeForm(income.jobTitle, income.clientName, income.amount, income.category, income.paymentStatus,
                 BeforeFirst(income.date, 'T'), income.currency, description),
      Some(income), true)
  }

  /** An ISO timestamp `<day>T<time>` is cut back to its day part. */
  lemma {:induction false} DatePartOfTimestamp(day: string, time: string)
    requires 'T' !in day
    ensures BeforeFirst(day + "T" + time, 'T') == day
  {
    if day != [] {
      assert (day + "T" + time)[1..] == day[1..] + "T" + time;
      DatePartOfTimestamp(day[1..], time);
    }
  }

  /** The request `handleSubmitIncome` makes for the current state. */
  function SaveRequestFor(s: PageState): (q: SaveRequest)
    ensures s.editing.Some? <==> q.Update?
    ensures q.form == s.form
    ensures q.Update? ==> q.id == s.editing.value.id
  {
    if s.editing.Some? then Update(s.editing.value.id, s.form) else Create(s.form)
  }

  /** After the request succeeds: the dialog closes, nothing is being edited
      and the form is back to its defaults. */
  function SaveSucceeded(s: PageState, today: string): (r: PageState)
    ensures !r.dialogOpen && r.editing.None?
    ensures r.form == DefaultForm(today)
  {
    PageState(DefaultForm(today), None, false)
  }

  /** After the request fails the state stays as it was and the toast names
      the operation that failed. */
  function SaveFailedMessage(s: PageState): (m: string)
    ensures s.editing.Some? <==> m == "Failed to update income entry"
    ensures s.editing.None? <==> m == "Failed to create income entry"
  {
    if s.editing.Some? then "Failed to update income entry" else "Failed to create income entry"
  }

  /** Editing a record and saving sends an update of that record's id,
      carrying its fields. */
  lemma EditThenSave(s: PageState, income: Income)
    ensures SaveRequestFor(EditIncome(s, income)) == Update(income.id, EditIncome(s, income).form)
    ensures SaveRequestFor(EditIncome(s, income)).form.amount == income.amount
  {
  }

  /** The amount input (line 587): `parseFloat(value) || 0`; `parsed` is
      the number read, if any. */
  function AmountInput(f: IncomeForm, parsed: Option<real>): (r: IncomeForm)
    ensures r.amount == RealOr(parsed, 0.0)
    ensures r == f.(amount := r.amount)
  {
    f.(amount := RealOr(parsed, 0.0))
  }

  /** Unlike the dashboard's dialog, this page sends whatever amount the
      form holds: text that is not a number is saved as an amount of 0. */
  lemma NonNumericAmountSaved(s: PageState)
    ensures SaveRequestFor(s.(form := AmountInput(s.form, None))).form.amount == 0.0
  {
  }
}
