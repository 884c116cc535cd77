/** The records the REST services return (src/lib/services/incomeService.ts
    lines 4-20, src/lib/services/expenseService.ts lines 4-20), with the
    fields the pages read (`id` is the record's `_id`). Categories and
    statuses stay strings: the pages use them as object keys and print them
    as they are. */
module Records {
  import opened Common

  datatype Income = Income(
    id: string,
    jobTitle: string,
    clientName: string,
    amount: real,
    category: string,
    paymentStatus: string,
    date: string,
    currency: string,
    description: Option<string>)

  datatype Expense = Expense(
    id: string,
    title: string,
    amount: real,
    category: string,
    date: string,
    status: Option<string>)

  function IncomeAmount(e: Income): real { e.amount }
  function IncomeCategory(e: Income): string { e.category }
  function IncomeStatus(e: Income): string { e.paymentStatus }
  function ExpenseAmount(e: Expense): real { e.amount }
  function ExpenseCategory(e: Expense): string { e.category }
}
