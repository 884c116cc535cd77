/** The dashboard's income dialog (src/components/IncomeModal.tsx): the
    form's contents when it opens, the submit guard and the reset after a
    submit. The toast-free `return` of a rejected submit is an outcome with
    nothing submitted. */
module IncomeModal {
  import opened Common
  import opened Text
  import opened Entries
  import Dashboard

  /** The form when the dialog opens (lines 24-40): the edited entry's data,
      or an empty form dated `today` (`new Date().toISOString().split('T')[0]`). */
  function OpenForm(editData: Option<IncomeEntry>, today: string): (f: IncomeData)
    ensures editData.Some? ==> f == editData.value.data
    ensures editData.None? ==> f == EmptyForm(today)
  {
    if editData.Some? then editData.value.data else EmptyForm(today)
  }

  function EmptyForm(today: string): (f: IncomeData)
    ensures f.date == today && f.jobTitle == "" && f.clientName == "" && f.billAmount == 0.0
  {
    IncomeData(today, "", "", 0.0)
  }

  /** The guard of `handleSubmit`: no empty job title, no empty client name,
      a positive amount. The texts are not trimmed. */
  predicate Acceptable(f: IncomeData)
  {
    f.jobTitle != "" && f.clientName != "" && f.billAmount > 0.0
  }

  datatype SubmitOutcome = SubmitOutcome(submitted: Option<IncomeData>, form: IncomeData)

  /** `handleSubmit` (lines 42-55): a rejected form stays as it is and
      nothing is submitted; an accepted one goes to `onSubmit` unchanged and
      the form is emptied. */
  function Submit(f: IncomeData, today: string): (r: SubmitOutcome)
    ensures r.submitted.Some? <==> f.jobTitle != "" && f.clientName != "" && f.billAmount > 0.0
    ensures r.submitted.Some? ==> r.submitted.value == f && r.form == EmptyForm(today)
    ensures r.submitted.None? ==> r.form == f
  {
    if !Acceptable(f) then SubmitOutcome(None, f) else SubmitOutcome(Some(f), EmptyForm(today))
  }

  /** The amount input (line 116): `parseFloat(value) || 0`. */
  function AmountInput(f: IncomeData, parsed: Option<real>): (r: IncomeData)
    ensures r.billAmount == RealOr(parsed, 0.0)
    ensures r.date == f.date && r.jobTitle == f.jobTitle && r.clientName == f.clientName
  {
    f.(billAmount := RealOr(parsed, 0.0))
  }

  /** Text that is not a number leaves the amount at 0, which the guard then
      refuses. */
  lemma NonNumericAmountRejected(f: IncomeData, today: string)
    ensures Submit(AmountInput(f, None), today).submitted.None?
  {
  }

  /** A job title of blanks is accepted: the guard tests for the empty string
      only. */
  lemma BlankTitleAccepted(today: string)
    ensures Submit(IncomeData(today, " ", "c", 1.0), today).submitted == Some(IncomeData(today, " ", "c", 1.0))
  {
  }

  /** The empty form a dialog opens with for a new entry cannot be submitted
      as it is. */
  lemma EmptyFormRejected(today: string)
    ensures Submit(OpenForm(None, today), today).submitted.None?
  {
  }

  /** Reopening an entry and submitting it unchanged hands back exactly its
      data, when that data passes the guard. */
  lemma ResubmitUnchanged(e: IncomeEntry, today: string)
    requires Acceptable(e.data)
    ensures Submit(OpenForm(Some(e), today), today).submitted == Some(e.data)
  {
  }

  /** Anything the dialog submits raises the dashboard's net profit when it
      is added. */
  lemma SubmittedIncomeRaisesProfit(s: Dashboard.DashboardState, id: string, f: IncomeData, today: string)
    requires Submit(f, today).submitted.Some?
    ensures Dashboard.NetProfit(Dashboard.AddIncome(s, id, Submit(f, today).submitted.value)) > Dashboard.NetProfit(s)
  {
  }
}
