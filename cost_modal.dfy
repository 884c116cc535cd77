/** The dashboard's expense dialog (src/components/CostModal.tsx): the
    form's contents when it opens, the submit guard and the reset after a
    submit. */
module CostModal {
  import opened Common
  import opened Text
  import opened Entries
  import Dashboard

  /** The form when the dialog opens (lines 23-37): the edited entry's data,
      or an empty form dated `today`. */
  function OpenForm(editData: Option<CostEntry>, today: string): (f: CostData)
    ensures editData.Some? ==> f == editData.value.data
    ensures editData.None? ==> f == EmptyForm(today)
  {
    if editData.Some? then editData.value.data else EmptyForm(today)
  }

  function EmptyForm(today: string): (f: CostData)
    ensures f.date == today && f.costTitle == "" && f.costAmount == 0.0
  {
    CostData(today, "", 0.0)
  }

  /** The guard of `handleSubmit`: a non-empty title and a positive
      amount. */
  predicate Acceptable(f: CostData)
  {
    f.costTitle != "" && f.costAmount > 0.0
  }

  datatype SubmitOutcome = SubmitOutcome(submitted: Option<CostData>, form: CostData)

  /** `handleSubmit` (lines 39-51). */
  function Submit(f: CostData, today: string): (r: SubmitOutcome)
    ensures r.submitted.Some? <==> f.costTitle != "" && f.costAmount > 0.0
    ensures r.submitted.Some? ==> r.submitted.value == f && r.form == EmptyForm(today)
    ensures r.submitted.None? ==> r.form == f
  {
    if !Acceptable(f) then SubmitOutcome(None, f) else SubmitOutcome(Some(f), EmptyForm(today))
  }

  /** The amount input (line 101): `parseFloat(value) || 0`. */
  function AmountInput(f: CostData, parsed: Option<real>): (r: CostData)
    ensures r.costAmount == RealOr(parsed, 0.0)
    ensures r.date == f.date && r.costTitle == f.costTitle
  {
    f.(costAmount := RealOr(parsed, 0.0))
  }

  /** Text that is not a number leaves the amount at 0, which the guard then
      refuses. */
  lemma NonNumericAmountRejected(f: CostData, today: string)
    ensures Submit(AmountInput(f, None), today).submitted.None?
  {
  }

  /** The empty form cannot be submitted as it is. */
  lemma EmptyFormRejected(today: string)
    ensures Submit(OpenForm(None, today), today).submitted.None?
  {
  }

  /** Reopening an entry and submitting it unchanged hands back exactly its
      data, when that data passes the guard. */
  lemma ResubmitUnchanged(e: CostEntry, today: string)
    requires Acceptable(e.data)
    ensures Submit(OpenForm(Some(e), today), today).submitted == Some(e.data)
  {
  }

  /** Anything the dialog submits lowers the dashboard's net profit when it
      is added. */
  lemma SubmittedCostLowersProfit(s: Dashboard.DashboardState, id: string, f: CostData, today: string)
    requires Submit(f, today).submitted.Some?
    ensures Dashboard.NetProfit(Dashboard.AddCost(s, id, Submit(f, today).submitted.value)) < Dashboard.NetProfit(s)
  {
  }
}
