/** The monthly dashboard page (src/pages/Index.tsx): its hook state, the
    handlers that replace that state, and the report it hands to the PDF
    generator. Each handler is a function from the old state to the new one;
    the "nothing else changes" part of every contract is stated field by
    field. */
module Dashboard {
  import opened Common
  import opened Text
  import opened Entries
  import opened PdfReport

  datatype DashboardState = DashboardState(
    selectedMonth: int,
    selectedYear: int,
    incomeEntries: seq<IncomeEntry>,
    costEntries: seq<CostEntry>,
    collaborators: seq<Collaborator>,
    numberOfCollaborators: int,
    isIncomeModalOpen: bool,
    isCostModalOpen: bool,
    editingIncomeId: Option<string>,
    editingCostId: Option<string>)

  /** The state on first render: empty lists, a collaborator count of 1 but
      no collaborator slot yet (the collaborator section's mount effect
      resizes the list to one slot), no open dialog. The current month and
      year are parameters (`new Date()`). */
  function InitialState(month: int, year: int): (s: DashboardState)
    ensures s.incomeEntries == [] && s.costEntries == [] && s.collaborators == []
    ensures s.numberOfCollaborators == 1
    ensures !s.isIncomeModalOpen && !s.isCostModalOpen
    ensures s.editingIncomeId == None && s.editingCostId == None
    ensures NetProfit(s) == 0.0
  {
    DashboardState(month, year, [], [], [], 1, false, false, None, None)
  }

  const Months: seq<string> := ["January", "February", "March", "April", "May", "June",
                                "July", "August", "September", "October", "November", "December"]

  /** `months[selectedMonth]`; an index outside the array reads `undefined`,
      which a template literal prints as "undefined". */
  function MonthName(m: int): string
  {
    if 0 <= m < |Months| then Months[m] else "undefined"
  }

  function NetProfit(s: DashboardState): real
  {
    TotalIncome(s.incomeEntries) - TotalCosts(s.costEntries)
  }

  /** Everything but the income side of the state is as in `s`. */
  predicate SameCostSide(s: DashboardState, r: DashboardState)
  {
    && r.selectedMonth == s.selectedMonth && r.selectedYear == s.selectedYear
    && r.costEntries == s.costEntries && r.collaborators == s.collaborators
    && r.numberOfCollaborators == s.numberOfCollaborators
    && r.isCostModalOpen == s.isCostModalOpen && r.editingCostId == s.editingCostId
  }

  /** Everything but the cost side of the state is as in `s`. */
  predicate SameIncomeSide(s: DashboardState, r: DashboardState)
  {
    && r.selectedMonth == s.selectedMonth && r.selectedYear == s.selectedYear
    && r.incomeEntries == s.incomeEntries && r.collaborators == s.collaborators
    && r.numberOfCollaborators == s.numberOfCollaborators
    && r.isIncomeModalOpen == s.isIncomeModalOpen && r.editingIncomeId == s.editingIncomeId
  }

  /** `handleAddIncome`: the new entry goes last, the dialog closes, and the
      net profit rises by the entry's amount. `id` stands for
      `Date.now().toString()`. */
  function AddIncome(s: DashboardState, id: string, data: IncomeData): (r: DashboardState)
    ensures r.incomeEntries == Append(s.incomeEntries, id, data)
    ensures !r.isIncomeModalOpen && r.editingIncomeId == s.editingIncomeId
    ensures SameCostSide(s, r)
    ensures NetProfit(r) == NetProfit(s) + data.billAmount
  {
    TotalIncomeAfterAppend(s.incomeEntries, id, data);
    s.(incomeEntries := Append(s.incomeEntries, id, data), isIncomeModalOpen := false)
  }

  /** `handleEditIncome`: replaces the data of the entries with that id and
      closes the dialog. */
  function EditIncome(s: DashboardState, id: string, data: IncomeData): (r: DashboardState)
    ensures r.incomeEntries == EditById(s.incomeEntries, id, data)
    ensures !r.isIncomeModalOpen && r.editingIncomeId == None
    ensures SameCostSide(s, r)
  {
    s.(incomeEntries := EditById(s.incomeEntries, id, data), editingIncomeId := None, isIncomeModalOpen := false)
  }

  /** `handleDeleteIncome`: drops the entries with that id. */
  function DeleteIncome(s: DashboardState, id: string): (r: DashboardState)
    ensures r.incomeEntries == DeleteById(s.incomeEntries, id)
    ensures r.isIncomeModalOpen == s.isIncomeModalOpen && r.editingIncomeId == s.editingIncomeId
    ensures SameCostSide(s, r)
  {
    s.(incomeEntries := DeleteById(s.incomeEntries, id))
  }

  /** `handleAddCost`: the new cost goes last, the dialog closes, and the net
      profit falls by the cost's amount. */
  function AddCost(s: DashboardState, id: string, data: CostData): (r: DashboardState)
    ensures r.costEntries == Append(s.costEntries, id, data)
    ensures !r.isCostModalOpen && r.editingCostId == s.editingCostId
    ensures SameIncomeSide(s, r)
    ensures NetProfit(r) == NetProfit(s) - data.costAmount
  {
    TotalCostsAfterAppend(s.costEntries, id, data);
    s.(costEntries := Append(s.costEntries, id, data), isCostModalOpen := false)
  }

  /** `handleEditCost`. */
  function EditCost(s: DashboardState, id: string, data: CostData): (r: DashboardState)
    ensures r.costEntries == EditById(s.costEntries, id, data)
    ensures !r.isCostModalOpen && r.editingCostId == None
    ensures SameIncomeSide(s, r)
  {
    s.(costEntries := EditById(s.costEntries, id, data), editingCostId := None, isCostModalOpen := false)
  }

  /** `handleDeleteCost`. */
  function DeleteCost(s: DashboardState, id: string): (r: DashboardState)
    ensures r.costEntries == DeleteById(s.costEntries, id)
    ensures r.isCostModalOpen == s.isCostModalOpen && r.editingCostId == s.editingCostId
    ensures SameIncomeSide(s, r)
  {
    s.(costEntries := DeleteById(s.costEntries, id))
  }

  /** `openEditIncomeModal`: remembers which entry is edited and opens the
      dialog. */
  function OpenEditIncome(s: DashboardState, entry: IncomeEntry): (r: DashboardState)
    ensures r.editingIncomeId == Some(entry.id) && r.isIncomeModalOpen
    ensures r.incomeEntries == s.incomeEntries && SameCostSide(s, r)
  {
    s.(editingIncomeId := Some(entry.id), isIncomeModalOpen := true)
  }

  /** `openEditCostModal`. */
  function OpenEditCost(s: DashboardState, entry: CostEntry): (r: DashboardState)
    ensures r.editingCostId == Some(entry.id) && r.isCostModalOpen
    ensures r.costEntries == s.costEntries && SameIncomeSide(s, r)
  {
    s.(editingCostId := Some(entry.id), isCostModalOpen := true)
  }

  /** Adding an income entry under a fresh id and deleting it again gives
      back the same entry list and the same net profit. */
  lemma AddThenDeleteIncome(s: DashboardState, id: string, data: IncomeData)
    requires !HasId(s.incomeEntries, id)
    ensures DeleteIncome(AddIncome(s, id, data), id).incomeEntries == s.incomeEntries
    ensures NetProfit(DeleteIncome(AddIncome(s, id, data), id)) == NetProfit(s)
  {
    AppendThenDelete(s.incomeEntries, id, data);
  }

  /** The same round trip for costs. */
  lemma AddThenDeleteCost(s: DashboardState, id: string, data: CostData)
    requires !HasId(s.costEntries, id)
    ensures DeleteCost(AddCost(s, id, data), id).costEntries == s.costEntries
    ensures NetProfit(DeleteCost(AddCost(s, id, data), id)) == NetProfit(s)
  {
    AppendThenDelete(s.costEntries, id, data);
  }

  /** The object `handleGeneratePDF` passes on: the month's name, the year,
      the three lists as they are, and the totals the page displays. */
  function ReportPayload(s: DashboardState): (d: ReportData)
    ensures d.month == MonthName(s.selectedMonth) && d.year == s.selectedYear
    ensures d.incomeEntries == s.incomeEntries && d.costEntries == s.costEntries
    ensures d.collaborators == s.collaborators
    ensures d.totalIncome == TotalIncome(d.incomeEntries)
    ensures d.totalCosts == TotalCosts(d.costEntries)
    ensures d.netProfit == d.totalIncome - d.totalCosts
  {
    ReportData(MonthName(s.selectedMonth), s.selectedYear, s.incomeEntries, s.costEntries, s.collaborators,
               TotalIncome(s.incomeEntries), TotalCosts(s.costEntries), NetProfit(s))
  }

  /** The report prints one profit line per named collaborator, in order
      (pdfGenerator.ts:153); when the named collaborators' percentages add
      up to 100, the shares those lines print add up to the dashboard's
      whole net profit. */
  lemma PayloadSharesDistributeProfit(s: DashboardState, fmt: real -> string)
    requires SumInt(Filter(s.collaborators, IsNamed), SharePercentage) == 100
    ensures var d := ReportPayload(s);
      var named := Filter(d.collaborators, IsNamed);
      && |ProfitLines(d.collaborators, d.netProfit, fmt)| == |named|
      && (forall k :: 0 <= k < |named| ==>
            ProfitLines(d.collaborators, d.netProfit, fmt)[k] == Cell(Margin, ProfitLine(named[k], d.netProfit, fmt)))
      && TotalShares(named, d.netProfit) == NetProfit(s)
  {
    ProfitLinesAreNamed(s.collaborators, NetProfit(s), fmt);
    SharesDistributeProfit(Filter(s.collaborators, IsNamed), NetProfit(s));
  }

  /** Unnamed slots, which a resize leaves behind, get no line: with an
      unnamed and a named collaborator at 50% each, all shares add up to the
      net profit but the one printed line carries only half of it. */
  lemma UnnamedSharesNotPrinted(netProfit: real, fmt: real -> string)
    ensures var cs := [Collaborator("collab-0", "", 50), Collaborator("collab-1", "A", 50)];
      && TotalShares(cs, netProfit) == netProfit
      && |ProfitLines(cs, netProfit, fmt)| == 1
      && TotalShares(Filter(cs, IsNamed), netProfit) == netProfit / 2.0
  {
    var cs := [Collaborator("collab-0", "", 50), Collaborator("collab-1", "A", 50)];
    UnnamedPairNamed(cs);
    ProfitLinesAreNamed(cs, netProfit, fmt);
    PairShares(cs, netProfit);
    var named := [cs[1]];
    assert named[..0] == [];
    assert TotalShares(named, netProfit) == TotalShares(named[..0], netProfit) + Share(netProfit, 50);
  }

  /** Of an unnamed and a named collaborator, only the named one is kept. */
  lemma UnnamedPairNamed(cs: seq<Collaborator>)
    requires |cs| == 2 && !IsNamed(cs[0]) && IsNamed(cs[1])
    ensures Filter(cs, IsNamed) == [cs[1]]
  {
    var first := cs[..1];
    assert first[..0] == [];
    assert Filter(first, IsNamed) == Filter(first[..0], IsNamed) + [];
    assert Filter(cs, IsNamed) == Filter(first, IsNamed) + [cs[1]];
  }

  /** Two collaborators' shares add up to the sum of their two shares. */
  lemma PairShares(cs: seq<Collaborator>, netProfit: real)
    requires |cs| == 2
    ensures TotalShares(cs, netProfit) == Share(netProfit, cs[0].sharePercentage) + Share(netProfit, cs[1].sharePercentage)
  {
    var first := cs[..1];
    assert first[..0] == [];
    assert TotalShares(first, netProfit) == TotalShares([], netProfit) + Share(netProfit, cs[0].sharePercentage);
    assert TotalShares(cs, netProfit) == TotalShares(first, netProfit) + Share(netProfit, cs[1].sharePercentage);
  }

  /** `handleGeneratePDF`: the document for the selected month and its file
      name. */
  method GenerateReport(s: DashboardState, pageHeight: real, fmt: real -> string, today: string)
    returns (events: seq<TextEvent>, fileName: string)
    ensures Cells(events) == ReportCells(ReportPayload(s), fmt, today)
    ensures fileName == ReportFileName(MonthName(s.selectedMonth), s.selectedYear)
    ensures 0 <= s.selectedMonth < 12 ==> fileName == "Upwork_Report_" + Months[s.selectedMonth] + "_" + IntToString(s.selectedYear) + ".pdf"
  {
    events, fileName := GeneratePdf(ReportPayload(s), pageHeight, fmt, today);
  }
}
