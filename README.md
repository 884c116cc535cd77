# upwork-income-scribe, modelled in Dafny

This project models the logic of the upwork-income-scribe web client, a
React front end over a REST back end. A freelancer uses it to record income
and expenses, share profit with collaborators, and export reports. The
model covers the pieces of that client whose behaviour can be stated
exactly, and proves properties of them:

- **the PDF report layout** (`src/utils/pdfGenerator.ts`). A `ReportWriter`
  class holds the jsPDF cursor (page, `y`) and a log of text events. Its
  methods follow `generatePDF` section by section. They are proved against
  `ReportCells`, which gives the document's content, and they keep the
  layout invariant that `(page, y)` never moves back up the document.
- **totals and profit sharing**: on the dashboard (`src/pages/Index.tsx`),
  the reports page (`src/pages/Reports.tsx`) and the income list
  (`src/pages/IncomeList.tsx`), and per collaborator in the report.
- **share-percentage rules**: the collaboration dialog
  (`src/components/CollaborationModal.tsx`) and the collaborator section
  (`src/components/CollaboratorSection.tsx`).
- **the entry lists and the form validators**: the dashboard handlers and
  the income and cost dialogs.
- **serialisers**:
  - the CSV export of the reports page;
  - the query strings that the income, expense and collaboration services
    build, each modelled as a method that appends step by step;
  - the endpoint path templates and the API error-message flattening.
- **small state machines**:
  - the authentication context over browser storage, as a class;
  - the CSV upload dialog, as a class;
  - the navigation bar's active-link test and mobile menu.

Conventions:

- Amounts are Dafny `real`, so sums are exact.
- Percentages are `int`, as `parseInt` makes them.
- `toFixed`, `toLocaleDateString` and the other number and date formatters
  are function parameters.
- Integers the source prints use a verified `IntToString`, with its
  `parseInt` round trip proved.
- JavaScript truthiness is written out: a number is truthy when it is not
  0, and a string when it is not empty.
- Browser storage is a `map<string, string>`.
- JSON parsing and serialising are function parameters.

Facts about the code worth knowing before reading the model:

- Profit shares are not clamped at zero when the net profit is negative.
- The report prints a profit line only for a collaborator with a name.
- The empty-section placeholders are "No income entries recorded." and "No
  expense entries recorded.".
- The report file is named `Upwork_Report_<month>_<year>.pdf`.
- The CSV export starts with a header row, so it has one line more than
  there are entries.
- The income CSV template's header names four columns over rows of five
  fields; see "## Findings".

The files:

| file | module | models |
|---|---|---|
| `common.dfy` | `Common` | `Option`, sums, filters and grouping by key, with their lemmas |
| `text.dfy` | `Text` | prefixes, integer-to-text and `parseInt`, `split` and `join` |
| `records.dfy` | `Records` | the income and expense records of the services |
| `entries.dfy` | `Entries` | the dashboard's entries: append, edit by id, delete by id, totals |
| `dashboard.dfy` | `Dashboard` | the dashboard page's state and handlers, and the PDF payload |
| `pdf_report.dfy` | `PdfReport` | `generatePDF`: the page-break rule, section order, rows, profit lines |
| `collaboration_form.dfy` | `CollaborationForm` | the collaboration dialog's members, shares and submit |
| `collaborator_section.dfy` | `CollaboratorSection` | the collaborator list's resize, edits and count input |
| `income_modal.dfy`, `cost_modal.dfy` | `IncomeModal`, `CostModal` | the two entry dialogs: validation, reset, prefill |
| `reports.dfy` | `Reports` | the reports page: totals, margin, grouping, CSV export, periods |
| `income_list.dfy` | `IncomeList` | the income list page: totals, chart data, colours, edit prefill |
| `query_params.dfy` | `QueryParams` | the conditional `URLSearchParams.append` sequence and its properties |
| `income_service.dfy`, `expense_service.dfy`, `collaboration_service.dfy` | services | query strings and paths |
| `api.dfy` | `Api` | `handleApiError` and the `ENDPOINTS` templates |
| `navigation.dfy` | `Navigation` | `isActive` and the mobile menu |
| `auth.dfy` | `Auth` | the authentication context as a class over storage |
| `csv_upload.dfy` | `CsvUpload` | the CSV upload dialog and its template |

## Model

| member | source | states |
|---|---|---|
| `Api.ApiErrorMessage` | src/lib/api.ts:61-71 | a non-empty response `message` is returned; otherwise a present `errors` list gives its messages joined by ", "; otherwise an axios error's own message; another `Error` gives its message; any other value gives "An unexpected error occurred" |
| `Api.MessageBeatsErrors` | src/lib/api.ts:63-65 | a non-empty body message wins over any error list |
| `Api.ErrorListEdges` | src/lib/api.ts:66-68 | one validation error is reported as its own text; an empty `errors` array is truthy and gives the empty message, not the axios one |
| `Api.ErrorsReadBack` | src/lib/api.ts:67 | when no message holds a comma, splitting the flattened text at commas gives back the messages: the first as it was, each later one after the space of the `", "` separator |
| `Api.JoinWithSpace` | src/lib/api.ts:67 | joining with ", " is joining with "," after putting a space before every piece but the first |
| `Api.IncomeItemPath` | src/lib/api.ts:94-96 | detail, update and delete of an income record use the list path, a slash, then the id |
| `Api.ExpenseItemPath` | src/lib/api.ts:103-105 | the same template for expenses, under `/api/expenses/` |
| `Api.ItemPathSegments` | src/lib/api.ts:94-105 | for an id without a slash, the path splits into `""`, `api`, the resource and the id, so the id is the last segment |
| `Api.ItemPathMeetsFixedRoutes` | src/lib/api.ts:94-106 | the item template cannot tell ids from the fixed routes: id `stats` gives the statistics path, and id `bulk` gives `/api/expenses/bulk` |
| `Entries.Append` | src/pages/Index.tsx:61-69 | adding keeps every earlier entry in place and puts exactly one new entry last, not being edited |
| `Entries.EditById` | src/pages/Index.tsx:71-81 | editing keeps the length and order; entries with the id get the new data, keep the id and stop being edited; all others are unchanged |
| `Entries.DeleteById` | src/pages/Index.tsx:83-85 | deleting leaves no entry with the id, keeps only existing entries, and keeps every entry with another id |
| `Entries.DeleteByIdAppend` | src/pages/Index.tsx:83-85 | deleting distributes over concatenation, so the remaining entries keep their relative order |
| `Entries.DeleteAbsentId` | src/pages/Index.tsx:83-85 | deleting an id no entry has changes nothing |
| `Entries.AppendThenDelete` | src/pages/Index.tsx:61-85 | adding under a fresh id and then deleting that id restores the list |
| `Entries.EditAbsentId` | src/pages/Index.tsx:71-81 | editing an id no entry has changes nothing |
| `Entries.TotalIncomeAfterAppend` | src/pages/Index.tsx:57-69 | an added income entry raises `totalIncome` by exactly its bill amount |
| `Entries.TotalCostsAfterAppend` | src/pages/Index.tsx:58-95 | an added cost raises `totalCosts` by exactly its amount |
| `Entries.TotalIncomeAfterDelete` | src/pages/Index.tsx:57-85 | with non-negative amounts, deleting never raises the income total, and the total stays non-negative |
| `Dashboard.InitialState` | src/pages/Index.tsx:38-50 | the page starts with empty lists, a collaborator count of 1 but no collaborator slot yet (the slot appears once the collaborator section's mount effect resizes the list), both dialogs closed, nothing being edited, and a net profit of 0 |
| `Dashboard.AddIncome` | src/pages/Index.tsx:61-69 | the income list is appended to and the income dialog closes; the cost side is unchanged; the net profit rises by the bill amount |
| `Dashboard.EditIncome` | src/pages/Index.tsx:71-81 | the income list is edited by id, the dialog closes and the edited id is cleared; the cost side is unchanged |
| `Dashboard.DeleteIncome` | src/pages/Index.tsx:83-85 | the income list loses that id; the dialog state and the cost side are unchanged |
| `Dashboard.AddCost` | src/pages/Index.tsx:87-95 | the cost list is appended to and the cost dialog closes; the income side is unchanged; the net profit falls by the cost |
| `Dashboard.EditCost` | src/pages/Index.tsx:97-107 | the cost list is edited by id, the dialog closes and the edited id is cleared; the income side is unchanged |
| `Dashboard.DeleteCost` | src/pages/Index.tsx:109-111 | the cost list loses that id; the dialog state and the income side are unchanged |
| `Dashboard.OpenEditIncome` | src/pages/Index.tsx:113-116 | the entry's id is remembered and the income dialog opens; the lists are unchanged |
| `Dashboard.OpenEditCost` | src/pages/Index.tsx:118-121 | the entry's id is remembered and the cost dialog opens; the lists are unchanged |
| `Dashboard.AddThenDeleteIncome` | src/pages/Index.tsx:61-85 | adding an income entry under a fresh id and deleting it gives back the income list and the net profit |
| `Dashboard.AddThenDeleteCost` | src/pages/Index.tsx:87-111 | the same round trip for costs |
| `Dashboard.ReportPayload` | src/pages/Index.tsx:123-133 | the report gets `months[selectedMonth]`, the year, the three lists as they are, `totalIncome` and `totalCosts` as the sums of the amounts, and `netProfit` as their difference |
| `Dashboard.PayloadSharesDistributeProfit` | src/pages/Index.tsx:123-134 | the report prints one profit line per named collaborator, in order, and when the named collaborators' percentages add up to 100 the shares on those lines add up to the dashboard's whole net profit |
| `Dashboard.UnnamedSharesNotPrinted` | src/utils/pdfGenerator.ts:152-159 | an unnamed 50% slot beside a named 50% one: all shares add up to the net profit, but the single printed line carries half of it |
| `Dashboard.GenerateReport` | src/pages/Index.tsx:123-134 | the generated document is the report of the payload, and for a valid month its file is `Upwork_Report_<month name>_<year>.pdf` |
| `PdfReport.IncomeRows` | src/utils/pdfGenerator.ts:68-75 | four cells per income entry |
| `PdfReport.IncomeSection` | src/utils/pdfGenerator.ts:47-76 | the section opens with its heading; it has 2 cells for an empty list, otherwise 5 plus 4 per entry |
| `PdfReport.ExpenseRows` | src/utils/pdfGenerator.ts:105-111 | three cells per cost entry |
| `PdfReport.ExpenseSection` | src/utils/pdfGenerator.ts:85-112 | the section opens with its heading; it has 2 cells for an empty list, otherwise 4 plus 3 per entry |
| `PdfReport.IncomeRowsAt` | src/utils/pdfGenerator.ts:68-75 | the k-th entry is the k-th block of four cells, in input order; its job title and client name are cut to their first 25 characters (counted in code points; see `Text.Truncate` under "## Left out") |
| `PdfReport.ExpenseRowsAt` | src/utils/pdfGenerator.ts:105-111 | the k-th cost is the k-th block of three cells; its title is cut to its first 50 characters (counted in code points; see `Text.Truncate` under "## Left out") |
| `PdfReport.IncomePlaceholder` | src/utils/pdfGenerator.ts:54-64 | an empty income list gives only the heading and "No income entries recorded.", with no column headers; a non-empty one gives the four column headers after the heading |
| `PdfReport.ExpensePlaceholder` | src/utils/pdfGenerator.ts:92-101 | the same for expenses, with "No expense entries recorded." and three column headers |
| `PdfReport.ProfitLinesAreNamed` | src/utils/pdfGenerator.ts:152-159 | there is one profit line per collaborator with a non-empty name, in list order, and none for the others |
| `PdfReport.ProfitHeadingIffCollaborators` | src/utils/pdfGenerator.ts:140-146 | the Profit Sharing block is present exactly when the collaborator list is non-empty, and it opens with its heading |
| `PdfReport.SectionOrder` | src/utils/pdfGenerator.ts:30-165 | the document is the title, `<month> <year>`, Income Entries, Expense Entries, Financial Summary with its three lines, then Profit Sharing if there are collaborators, and the footer last |
| `PdfReport.TotalSharesProportional` | src/utils/pdfGenerator.ts:155 | the shares `netProfit * pct / 100` add up to the net profit times the percentages' sum over 100 |
| `PdfReport.SharesDistributeProfit` | src/utils/pdfGenerator.ts:155 | when the percentages add up to 100, the shares add up to the net profit |
| `PdfReport.LossGivesNegativeShares` | src/utils/pdfGenerator.ts:155 | shares are not clamped: with a loss, every positive percentage gives a negative share |
| `PdfReport.FileNameDeterminesYear` | src/utils/pdfGenerator.ts:168 | two reports of one month with the same file name are for the same year |
| `PdfReport.OrderedPages` | src/utils/pdfGenerator.ts:18-160 | in a log drawn in cursor order, no event is on a later page than the last one |
| `PdfReport.ReportWriter.constructor` | src/utils/pdfGenerator.ts:17-20 | a new document is on page 1, with the cursor at 20 and nothing drawn |
| `PdfReport.ReportWriter.CheckPageBreak` | src/utils/pdfGenerator.ts:23-28 | a page is added and the cursor goes back to 20 exactly when `y + required > pageHeight - 20`; otherwise nothing changes |
| `PdfReport.ReportWriter.Write` | src/utils/pdfGenerator.ts:33 | one text is drawn at the cursor, on the current page, and the cursor does not move |
| `PdfReport.ReportWriter.Advance` | src/utils/pdfGenerator.ts:34 | the cursor moves down by the given amount and nothing else changes |
| `PdfReport.ReportWriter.WriteHeading` | src/utils/pdfGenerator.ts:30-40 | the title, then `<month> <year>` 15 points lower, both on the current page |
| `PdfReport.ReportWriter.WriteIncomeRow` | src/utils/pdfGenerator.ts:69-74 | the row's four cells are appended, and with `pageHeight >= 48` each is drawn with room for a row above the bottom margin |
| `PdfReport.ReportWriter.WriteSectionHeading` | src/utils/pdfGenerator.ts:43-48 | after the page check for the block, the heading is appended |
| `PdfReport.ReportWriter.WritePlaceholder` | src/utils/pdfGenerator.ts:54-56 | the placeholder line is appended |
| `PdfReport.ReportWriter.WriteIncomeColumns` | src/utils/pdfGenerator.ts:59-64 | the four income column headers are appended |
| `PdfReport.ReportWriter.WriteIncomeRows` | src/utils/pdfGenerator.ts:68-75 | the loop appends the rows of `IncomeRows`, in order, and every row fits above the bottom margin |
| `PdfReport.ReportWriter.WriteIncome` | src/utils/pdfGenerator.ts:42-78 | the income table is `IncomeSection`, and its rows fit above the bottom margin |
| `PdfReport.ReportWriter.WriteExpenseRow` | src/utils/pdfGenerator.ts:106-110 | the row's three cells are appended, each with room for a row above the bottom margin |
| `PdfReport.ReportWriter.WriteExpenseColumns` | src/utils/pdfGenerator.ts:97-101 | the three expense column headers are appended |
| `PdfReport.ReportWriter.WriteExpenseRows` | src/utils/pdfGenerator.ts:105-111 | the loop appends the rows of `ExpenseRows`, in order, and every row fits |
| `PdfReport.ReportWriter.WriteExpenses` | src/utils/pdfGenerator.ts:80-114 | the expense table is `ExpenseSection`, and its rows fit |
| `PdfReport.ReportWriter.WriteSummary` | src/utils/pdfGenerator.ts:116-137 | the heading and the three total lines are appended |
| `PdfReport.ReportWriter.WriteProfitLine` | src/utils/pdfGenerator.ts:154-157 | one `name: pct% = $share` line is appended, with room above the bottom margin |
| `PdfReport.ReportWriter.WriteProfitLines` | src/utils/pdfGenerator.ts:152-159 | the loop appends `ProfitLines`: one line per named collaborator, in order, each of which fits |
| `PdfReport.ReportWriter.WriteProfitSharing` | src/utils/pdfGenerator.ts:139-160 | the block is `ProfitSection`, empty without collaborators |
| `PdfReport.ReportWriter.WriteTitleAndTables` | src/utils/pdfGenerator.ts:30-114 | on a fresh document, the title at (page 1, 20), the period 15 lower, then both tables, with every income and expense row fitting |
| `PdfReport.ReportWriter.WriteBody` | src/utils/pdfGenerator.ts:30-160 | everything above the footer is `BodyCells`; the events stay in cursor order; every table row and profit line fits |
| `PdfReport.ReportWriter.WriteFooter` | src/utils/pdfGenerator.ts:163-165 | the footer is drawn on the current page, at `pageHeight - 10` |
| `PdfReport.GeneratePdf` | src/utils/pdfGenerator.ts:16-169 | the document's content is `ReportCells` and its name is `Upwork_Report_<month>_<year>.pdf`; it opens with the title; the body is in cursor order; the footer is on the last page at `pageHeight - 10`; with `pageHeight >= 48` every row fits |
| `PdfReport.FooterIsLast` | src/utils/pdfGenerator.ts:162-165 | a footer drawn on the body's last page is on the document's last page |
| `PdfReport.RowsPlacedExtends` | src/utils/pdfGenerator.ts:162-165 | adding the footer keeps every row where it was |
| `PdfReport.RowsFitPrefix` | src/utils/pdfGenerator.ts:18-160 | rows that fit in a log still fit in any log extending it |
| `CollaborationForm.AddMember` | src/components/CollaborationModal.tsx:74-96 | a blank user id (empty once `trim()` removes every ECMAScript whitespace and line terminator) is refused with its message and nothing changes; a member that would take the total above 100 is refused with the cap message and nothing changes; otherwise, and only then, the member is appended last, the inputs reset to `('', member, 0)`, and the total grows by its share |
| `CollaborationForm.WithoutIndexIsSplice` | src/components/CollaborationModal.tsx:101 | filtering out position `i` is cutting the list there; a position outside the list changes nothing |
| `CollaborationForm.RemoveMember` | src/components/CollaborationModal.tsx:98-103 | exactly the member at the index goes and the others keep their order; an index outside the list changes nothing; the other fields are unchanged |
| `CollaborationForm.AddKeepsCap` | src/components/CollaborationModal.tsx:80-89 | adding keeps a total of at most 100 within 100, whatever the shares |
| `CollaborationForm.RemoveKeepsCap` | src/components/CollaborationModal.tsx:98-103 | removing keeps a total of at most 100 within 100 when no share is negative |
| `CollaborationForm.ShareWithout` | src/components/CollaborationModal.tsx:123 | the total without one member is the total less that member's share |
| `CollaborationForm.NegativeShareBreaksCap` | src/components/CollaborationModal.tsx:80-103 | negative shares are not refused: add -10, add 105, remove the first, and the total is 105 |
| `CollaborationForm.ShareInput` | src/components/CollaborationModal.tsx:198 | the share input is the parsed integer, or 0 when there is none |
| `CollaborationForm.ShareInputOfNumber` | src/components/CollaborationModal.tsx:198 | a typed integer reaches the member unchanged |
| `CollaborationForm.InputChange` | src/components/CollaborationModal.tsx:105-121 | a `settings.k` field writes setting `k` and leaves the other settings and the top-level fields as they were; any other field writes that top-level key only; members never change |
| `CollaborationForm.InputChangeOverrides` | src/components/CollaborationModal.tsx:105-114 | a second write of one setting overrides the first |
| `CollaborationForm.Submit` | src/components/CollaborationModal.tsx:46-72 | a blank name is ignored silently; a member total above 100 is refused with the cap message; otherwise the form is submitted as it is and reset to the empty defaults |
| `CollaborationForm.IdeographicSpaceIsBlank` | src/components/CollaborationModal.tsx:46-78 | a user id or name made only of an ideographic space (U+3000) is blank: the member is refused with the missing-user message and the form is not submitted |
| `CollaborationForm.SubmittedFormsAreValid` | src/components/CollaborationModal.tsx:46-72 | a form is submitted exactly when its name is not blank and its total is at most 100; afterwards the name is blank and there are no members |
| `CollaborationForm.AddedMembersPassSubmit` | src/components/CollaborationModal.tsx:46-96 | a named form whose members all came through the add guard always passes the submit guard |
| `CollaboratorSection.DefaultShare` | src/components/CollaboratorSection.tsx:23 | for `n > 0` the default share is `floor(100 / n)`: `n` of them add up to at most 100, and to more than `100 - n` |
| `CollaboratorSection.Resize` | src/components/CollaboratorSection.tsx:22-36 | the loop builds exactly `n` slots (none for `n <= 0`), slot `i` being `ResizedSlot(prev, n, i)` |
| `CollaboratorSection.FreshResizeTotal` | src/components/CollaboratorSection.tsx:23-32 | a fresh list of `n` default slots totals at most 100, and is short of it by less than `n` |
| `CollaboratorSection.ResizeKeepsExisting` | src/components/CollaboratorSection.tsx:27-32 | an existing slot keeps its name, its id when that is not empty, and its share when that is not 0; a share of 0 becomes the default (the `||` fallback) |
| `CollaboratorSection.FreshIdsDistinct` | src/components/CollaboratorSection.tsx:29 | new slots get distinct `collab-<i>` ids |
| `CollaboratorSection.ChangeCollaborator` | src/components/CollaboratorSection.tsx:38-47 | only the edited field of the slot at the index changes, every other slot is unchanged, and the total moves by the share's change |
| `CollaboratorSection.CountInput` | src/components/CollaboratorSection.tsx:63 | the count is the parsed integer when that is at least 1, otherwise 1, so it is never below 1 |
| `CollaboratorSection.CountInputOfPositive` | src/components/CollaboratorSection.tsx:63 | typing a positive count sets exactly that count |
| `IncomeModal.OpenForm` | src/components/IncomeModal.tsx:24-40 | editing prefills all four fields from the entry; otherwise the form is empty and dated today |
| `IncomeModal.EmptyForm` | src/components/IncomeModal.tsx:33-38 | the empty form: today's date, no title, no client, amount 0 |
| `IncomeModal.Submit` | src/components/IncomeModal.tsx:42-55 | a form is submitted exactly when its title and client are not empty and its amount is positive; it is submitted unchanged and the form resets; a refused form stays as it is |
| `IncomeModal.AmountInput` | src/components/IncomeModal.tsx:116 | the amount becomes the parsed number or 0, and no other field changes |
| `IncomeModal.NonNumericAmountRejected` | src/components/IncomeModal.tsx:44-116 | an amount that is not a number becomes 0, which submit refuses |
| `IncomeModal.BlankTitleAccepted` | src/components/IncomeModal.tsx:44 | the texts are not trimmed, so a title of blanks is accepted |
| `IncomeModal.EmptyFormRejected` | src/components/IncomeModal.tsx:33-46 | the form a new entry opens with cannot be submitted as it is |
| `IncomeModal.ResubmitUnchanged` | src/components/IncomeModal.tsx:24-48 | reopening an acceptable entry and submitting it hands back exactly its data |
| `IncomeModal.SubmittedIncomeRaisesProfit` | src/components/IncomeModal.tsx:44-48 | anything the dialog submits raises the dashboard's net profit when added |
| `CostModal.OpenForm` | src/components/CostModal.tsx:23-37 | editing prefills date, title and amount; otherwise the form is empty and dated today |
| `CostModal.EmptyForm` | src/components/CostModal.tsx:31-35 | the empty form: today's date, no title, amount 0 |
| `CostModal.Submit` | src/components/CostModal.tsx:39-51 | a form is submitted exactly when its title is not empty and its amount is positive; it is submitted unchanged and the form resets; a refused form stays as it is |
| `CostModal.AmountInput` | src/components/CostModal.tsx:101 | the amount becomes the parsed number or 0, and no other field changes |
| `CostModal.NonNumericAmountRejected` | src/components/CostModal.tsx:41-101 | an amount that is not a number becomes 0, which submit refuses |
| `CostModal.EmptyFormRejected` | src/components/CostModal.tsx:31-43 | the form a new cost opens with cannot be submitted as it is |
| `CostModal.ResubmitUnchanged` | src/components/CostModal.tsx:23-45 | reopening an acceptable cost and submitting it hands back exactly its data |
| `CostModal.SubmittedCostLowersProfit` | src/components/CostModal.tsx:41-45 | anything the dialog submits lowers the dashboard's net profit when added |
| `Reports.ProfitMargin` | src/pages/Reports.tsx:175 | the margin is net profit over income as a percentage, and 0 when income is not positive |
| `Reports.MarginBounds` | src/pages/Reports.tsx:172-175 | with non-negative expenses the margin is at most 100, exactly 100 without expenses, and negative exactly when expenses exceed income |
| `Reports.GroupTotals` | src/pages/Reports.tsx:178-181 | the reducer's keys are exactly the keys that occur, each mapped to the sum of its entries' amounts, in first-appearance order |
| `Reports.IncomeByCategory` | src/pages/Reports.tsx:178-181 | every category that occurs has its total, and the totals add up to the total income |
| `Reports.ExpensesByCategory` | src/pages/Reports.tsx:189-192 | every expense category that occurs has its total, and the totals add up to the total expenses |
| `Reports.IncomeByStatus` | src/pages/Reports.tsx:228-231 | every payment status that occurs has its total, and the totals add up to the total income |
| `Reports.CsvRows` | src/pages/Reports.tsx:248-265 | the header, then one row per income entry, then one negated, "Paid" row per expense, in order |
| `Reports.CsvLines` | src/pages/Reports.tsx:266 | one line per row |
| `Reports.ReadBackRows` | src/pages/Reports.tsx:266 | rows whose fields hold no comma or newline split back into the same lines and fields |
| `Reports.CsvReadsBack` | src/pages/Reports.tsx:246-266 | the exported text splits back into the header and entry rows, six fields each, when no field holds a comma or newline |
| `Reports.CommaInFieldBreaksColumns` | src/pages/Reports.tsx:254-266 | a job title holding a comma makes its row read back with seven fields |
| `Reports.DaysInMonth` | src/pages/Reports.tsx:112 | a month has 28 to 31 days |
| `Reports.FirstDay` | src/pages/Reports.tsx:111 | `new Date(y, m, 1)` is a valid date on the first of a month, the month carrying into the year |
| `Reports.LastDay` | src/pages/Reports.tsx:112 | `new Date(y, m + 1, 0)` is a valid date on the last day of its month |
| `Reports.SelectPeriod` | src/pages/Reports.tsx:109-130 | the custom choice, and only it, passes the two texts through unchanged |
| `Reports.QuarterBounds` | src/pages/Reports.tsx:114-118 | quarter q runs from the first day of its first month to the last day of its third |
| `Reports.QuartersTileYear` | src/pages/Reports.tsx:114-118 | the quarters start on January 1, end on December 31, and each starts the day after the previous ends |
| `Reports.MonthBounds` | src/pages/Reports.tsx:110-113 | a month runs from its first to its last day, and the next month starts the day after, across the year end too |
| `Reports.YearIsFourQuarters` | src/pages/Reports.tsx:114-122 | the yearly range has the start of quarter 1 and the end of quarter 4 |
| `IncomeList.PaidAndPendingWithinTotal` | src/pages/IncomeList.tsx:112-116 | with non-negative amounts, paid plus pending is at most the total |
| `IncomeList.PaidIsStatusTotal` | src/pages/IncomeList.tsx:113-116 | the paid and pending figures equal the reports page's status totals for "paid" and "pending" |
| `IncomeList.StatusColor` | src/pages/IncomeList.tsx:118-125 | the three known statuses get their own colour, and grey is returned exactly for any other status |
| `IncomeList.CategoryColor` | src/pages/IncomeList.tsx:127-141 | a category in the colour table gets its entry, any other gets grey |
| `IncomeList.GreyCategories` | src/pages/IncomeList.tsx:76-141 | a badge is grey exactly when the category is "Other" or not among the options |
| `IncomeList.CategoryPoints` | src/pages/IncomeList.tsx:143-146 | one point per category, named after it, valued at that category's total |
| `IncomeList.ChartData` | src/pages/IncomeList.tsx:143-147 | every slice is a listed category with a positive total, and every category with a positive total has its slice |
| `IncomeList.ChartInCategoryOrder` | src/pages/IncomeList.tsx:143-147 | the slices come in the order of the category list |
| `IncomeList.NamesKeepOrder` | src/pages/IncomeList.tsx:147 | filtering points named after a list keeps the list's order |
| `IncomeList.CategoryTotalIsGroupTotal` | src/pages/IncomeList.tsx:145-146 | a category's value is the same total the reports page's category reducer computes |
| `IncomeList.CategoryPointsSum` | src/pages/IncomeList.tsx:143-146 | the points add up to the sum of the group totals of the listed categories |
| `IncomeList.CategoriesDistinct` | src/pages/IncomeList.tsx:76 | the category options are pairwise different |
| `IncomeList.ChartSumOfPoints` | src/pages/IncomeList.tsx:147 | with non-negative amounts, dropping the non-positive slices does not change the sum |
| `IncomeList.ChartCoversTotal` | src/pages/IncomeList.tsx:112-147 | when every entry has a listed category and no amount is negative, the chart adds up to the total income |
| `IncomeList.DefaultForm` | src/pages/IncomeList.tsx:60-69 | the empty form: amount 0, "Web Development", "pending", "USD", today's date, empty texts |
| `IncomeList.EditIncome` | src/pages/IncomeList.tsx:165-178 | the dialog opens on the record, the form holds its fields, the date is cut at the first `T`, and a missing description becomes empty |
| `IncomeList.DatePartOfTimestamp` | src/pages/IncomeList.tsx:173 | cutting `<day>T<time>` at the first `T` gives back the day |
| `IncomeList.SaveRequestFor` | src/pages/IncomeList.tsx:183-190 | an update of the edited record's id exactly when a record is being edited, otherwise a create, always with the form as it is |
| `IncomeList.SaveSucceeded` | src/pages/IncomeList.tsx:193-204 | after success the dialog is closed, nothing is edited and the form is back to its defaults |
| `IncomeList.SaveFailedMessage` | src/pages/IncomeList.tsx:208 | the failure message names the update exactly when editing, and the create otherwise |
| `IncomeList.EditThenSave` | src/pages/IncomeList.tsx:165-185 | editing a record and saving sends an update of that record's id with its amount |
| `IncomeList.AmountInput` | src/pages/IncomeList.tsx:587 | the amount becomes the parsed number or 0, and no other field changes |
| `IncomeList.NonNumericAmountSaved` | src/pages/IncomeList.tsx:183-587 | text that is not a number is sent as an amount of 0 |
| `QueryParams.NumberParam` | src/lib/services/incomeService.ts:125 | a numeric filter is sent exactly when present and not 0, as its decimal text |
| `QueryParams.TextParam` | src/lib/services/incomeService.ts:127 | a text filter is sent exactly when present and not empty, unchanged |
| `QueryParams.Pick` | src/lib/services/incomeService.ts:125-133 | the appended pairs are at most one per line, each under one of the lines' keys |
| `QueryParams.Line` | src/lib/services/incomeService.ts:127 | the reference definition of one `if (v) params.append(k, v)` line: its pair when the value is present, nothing otherwise; `PickPresence`, `PickOrdered` and `PickDistinct` state what a run of such lines sends |
| `QueryParams.AppendIfPresent` | src/lib/services/incomeService.ts:127 | the parameters after one line are those before it plus that line's pair, if any |
| `QueryParams.KeysOf` | src/lib/services/incomeService.ts:123-133 | the keys of the parameters, one per pair, in order |
| `QueryParams.IndexOf` | src/lib/services/incomeService.ts:125-133 | the first line carrying a key |
| `QueryParams.PickSnoc` | src/lib/services/incomeService.ts:125-133 | running one more line adds exactly that line's pair at the end |
| `QueryParams.IndexOfPrefix` | src/lib/services/incomeService.ts:125-133 | a key found among the first lines has the same position among all of them |
| `QueryParams.PickOrdered` | src/lib/services/incomeService.ts:125-133 | with distinct keys, the parameters come in the order of the lines |
| `QueryParams.PickDistinct` | src/lib/services/incomeService.ts:125-133 | with distinct keys, no key is appended twice |
| `QueryParams.PickPresence` | src/lib/services/incomeService.ts:125-133 | with distinct keys, a key is sent exactly when its line's value is present, and then with that value |
| `QueryParams.PickNothing` | src/lib/services/incomeService.ts:125-133 | when no value is present, nothing is appended |
| `QueryParams.DateRangeShape` | src/lib/services/incomeService.ts:147-149 | a statistics query holds at most the two dates, the start first, each exactly when given and non-empty |
| `IncomeService.IncomeValues` | src/lib/services/incomeService.ts:125-133 | one value per line |
| `IncomeService.IncomeLines` | src/lib/services/incomeService.ts:125-133 | the nine lines' keys and tests, in order: numbers by truthiness, texts by non-emptiness |
| `IncomeService.IncomeQuery` | src/lib/services/incomeService.ts:123-133 | the parameters the lines append are the present filters, in line order |
| `IncomeService.IncomeKeysDistinct` | src/lib/services/incomeService.ts:125-133 | the nine keys are pairwise different |
| `IncomeService.IncomeQueryShape` | src/lib/services/incomeService.ts:125-133 | each key at most once, in line order, sent exactly when its filter is truthy; month 0 is not sent |
| `IncomeService.NoFiltersNoParams` | src/lib/services/incomeService.ts:121-136 | no filters give no parameters and the URL `/api/income?` |
| `IncomeService.IncomeStatsQuery` | src/lib/services/incomeService.ts:147-149 | the statistics query appends the non-empty dates, start first |
| `ExpenseService.FlagParam` | src/lib/services/expenseService.ts:107 | the tax flag is sent exactly when defined, `false` as "false" |
| `ExpenseService.ExpenseValues` | src/lib/services/expenseService.ts:102-111 | one value per line |
| `ExpenseService.ExpenseQuery` | src/lib/services/expenseService.ts:100-111 | the parameters the lines append are the filters that pass their tests, in line order |
| `ExpenseService.ExpenseLines` | src/lib/services/expenseService.ts:102-111 | the ten lines' keys and tests, in order |
| `ExpenseService.ExpenseUrl` | src/lib/services/expenseService.ts:114 | the request goes to the expense list path followed by `?` |
| `ExpenseService.ExpenseKeysDistinct` | src/lib/services/expenseService.ts:102-111 | the ten keys are pairwise different |
| `ExpenseService.ExpenseQueryShape` | src/lib/services/expenseService.ts:102-111 | each key at most once, in line order, sent exactly when its test passes |
| `ExpenseService.TaxFlagSentWhenDefined` | src/lib/services/expenseService.ts:107 | the tax flag is sent exactly when defined, and `false` is sent as "false" |
| `ExpenseService.JanuaryNotSent` | src/lib/services/expenseService.ts:110 | month 0 (January) is falsy and is not sent |
| `ExpenseService.NoFiltersNoParams` | src/lib/services/expenseService.ts:98-115 | no filters give no parameters and the URL `/api/expenses?` |
| `ExpenseService.ExpenseStatsQuery` | src/lib/services/expenseService.ts:125-127 | the statistics query appends the non-empty dates, start first |
| `ExpenseService.BulkDeletePath` | src/lib/services/expenseService.ts:181 | bulk delete goes to the delete path of the id "bulk", `/api/expenses/bulk` |
| `CollaborationService.CollaborationValues` | src/lib/services/collaborationService.ts:98-101 | one value per line |
| `CollaborationService.CollaborationQuery` | src/lib/services/collaborationService.ts:96-101 | the parameters the lines append are the truthy filters, in line order |
| `CollaborationService.CollaborationQueryShape` | src/lib/services/collaborationService.ts:98-101 | each key at most once, in line order, sent exactly when its filter is truthy |
| `CollaborationService.CollaborationListUrl` | src/lib/services/collaborationService.ts:104 | the list URL is `/collaborations?` followed by the query string |
| `CollaborationService.CollaborationPath` | src/lib/services/collaborationService.ts:116 | a collaboration's path is `/collaborations/` followed by its id |
| `CollaborationService.MembersPath` | src/lib/services/collaborationService.ts:148 | the members path extends the collaboration's path |
| `CollaborationService.MemberPath` | src/lib/services/collaborationService.ts:161 | a member's path is the members path, a slash and the user id |
| `CollaborationService.PathsOutsideApi` | src/lib/services/collaborationService.ts:104-172 | none of the collaboration paths starts with `/api` |
| `CollaborationService.CollaborationSegments` | src/lib/services/collaborationService.ts:116 | with a slash-free id, the path splits into the list path's segments and the id |
| `CollaborationService.MemberSegments` | src/lib/services/collaborationService.ts:161 | with slash-free ids, the member path splits into the list segments, the collaboration id, "members" and the user id |
| `CollaborationService.MembersPathIsChild` | src/lib/services/collaborationService.ts:116-148 | the members path is the collaboration path plus one segment "members" |
| `CollaborationService.MemberPathInjective` | src/lib/services/collaborationService.ts:161 | different slash-free id pairs give different member paths |
| `CollaborationService.SlashInIdCollides` | src/lib/services/collaborationService.ts:116-148 | the collaboration "x/members" has the same path as the members of "x" |
| `Navigation.DashboardActiveOnlyAtRoot` | src/components/Navigation.tsx:38-41 | the dashboard link is highlighted exactly on `/` |
| `Navigation.OtherLinksArePrefixTests` | src/components/Navigation.tsx:38-43 | every other link is highlighted exactly on the paths it is a prefix of |
| `Navigation.OwnPageIsActive` | src/components/Navigation.tsx:30-43 | on its own page every link is highlighted |
| `Navigation.PrefixIsNotSegmentAware` | src/components/Navigation.tsx:42 | `/incomeX` and `/income/42` highlight the income link, `/income` does not highlight `/incomes` |
| `Navigation.PrefixesNest` | src/components/Navigation.tsx:42 | two prefixes of one path are prefixes of each other |
| `Navigation.HrefsDoNotNest` | src/components/Navigation.tsx:32-35 | no link's path other than the root is a prefix of another's |
| `Navigation.AtMostOneActive` | src/components/Navigation.tsx:30-43 | on any path at most one link is highlighted |
| `Navigation.MenuOpenIffOddPresses` | src/components/Navigation.tsx:27-149 | the mobile menu is open exactly when the button was pressed an odd number of times since the last link click |
| `Navigation.MenuEventsEffect` | src/components/Navigation.tsx:122-149 | pressing the button flips the menu, twice restores it, and a link click closes it |
| `Auth.AppLoad` | src/contexts/AuthContext.tsx:45-46 | the provider mounts with no user, loading, and the storage as earlier visits left it |
| `Auth.Get` | src/contexts/AuthContext.tsx:51-52 | a stored key reads back its value, and a missing key reads as null |
| `Auth.CheckAuthNext` | src/contexts/AuthContext.tsx:50-64 | the session check always ends with loading cleared |
| `Auth.UserOf` | src/contexts/AuthContext.tsx:76-83 | the signed-in user carries the response's id, names, e-mail, role and avatar |
| `Auth.LoginNext` | src/contexts/AuthContext.tsx:69-99 | every login path ends with loading cleared |
| `Auth.NewUser` | src/contexts/AuthContext.tsx:109-116 | a signup builds a user from the form's names and e-mail, with role "user", no avatar and the clock as id |
| `Auth.SignupNext` | src/contexts/AuthContext.tsx:101-128 | a signup always returns true and ends with loading cleared |
| `Auth.LogoutNext` | src/contexts/AuthContext.tsx:130-134 | a logout does not touch the loading flag |
| `Auth.UpdateProfileNext` | src/contexts/AuthContext.tsx:136-142 | a profile update does not touch the loading flag |
| `Auth.AuthProvider.constructor` | src/contexts/AuthContext.tsx:44-46 | the new provider's fields are the mounting state |
| `Auth.AuthProvider.CheckAuth` | src/contexts/AuthContext.tsx:50-64 | the fields become the state the session check gives |
| `Auth.AuthProvider.Login` | src/contexts/AuthContext.tsx:69-99 | the fields and the returned flag are those of the login transition |
| `Auth.AuthProvider.Signup` | src/contexts/AuthContext.tsx:101-128 | the fields and the returned flag are those of the signup transition |
| `Auth.AuthProvider.Logout` | src/contexts/AuthContext.tsx:130-134 | the fields become the state the logout gives |
| `Auth.AuthProvider.UpdateProfile` | src/contexts/AuthContext.tsx:136-142 | the fields become the state the profile update gives |
| `Auth.CheckAuthCases` | src/contexts/AuthContext.tsx:50-64 | with both keys non-empty a parsable user is restored; an unparsable one removes both keys; otherwise nothing changes; other keys are kept and loading ends |
| `Auth.LoginSucceeds` | src/contexts/AuthContext.tsx:75-89 | a successful answer signs in its user, stores the user and the token, keeps other keys and returns true |
| `Auth.LoginFails` | src/contexts/AuthContext.tsx:90-98 | a refused, empty or thrown login returns false and changes only the loading flag, which ends cleared |
| `Auth.LogoutClears` | src/contexts/AuthContext.tsx:130-134 | after a logout there is no user and neither session key, and other keys are kept |
| `Auth.UpdateProfileCases` | src/contexts/AuthContext.tsx:136-142 | without a user nothing changes; with one, the patch is merged and stored, and the token is kept |
| `Auth.MergeFields` | src/contexts/AuthContext.tsx:138 | a field the patch has wins, one it lacks is the user's, merging twice is merging once, and an empty patch changes nothing |
| `Auth.AuthenticatedAfter` | src/contexts/AuthContext.tsx:85-146 | signed in after a successful login or a signup, never after a logout |
| `Auth.LoginSurvivesReload` | src/contexts/AuthContext.tsx:50-87 | after a login with a non-empty token, a reload restores the same user when the JSON reads back |
| `Auth.EmptyTokenLostOnReload` | src/contexts/AuthContext.tsx:54-87 | a login that received an empty token is signed in, but a reload finds no session |
| `Auth.SignupSurvivesReload` | src/contexts/AuthContext.tsx:54-120 | after a signup, a reload restores the new user when the JSON reads back |
| `Auth.LogoutSurvivesReload` | src/contexts/AuthContext.tsx:54-133 | after a logout, a reload finds no session |
| `CsvUpload.SelectNext` | src/components/CSVUploadModal.tsx:39-50 | picking a file never changes the busy flag |
| `CsvUpload.UploadNext` | src/components/CSVUploadModal.tsx:52-80 | an upload that does not reach `onUpload` changes nothing |
| `CsvUpload.CloseNext` | src/components/CSVUploadModal.tsx:66-86 | closing never changes the busy flag |
| `CsvUpload.CsvUploadModal.constructor` | src/components/CSVUploadModal.tsx:34-36 | the dialog opens with no file, no result and not busy |
| `CsvUpload.CsvUploadModal.FileSelect` | src/components/CSVUploadModal.tsx:39-50 | the fields become the state the file pick gives |
| `CsvUpload.CsvUploadModal.Upload` | src/components/CSVUploadModal.tsx:52-80 | the fields, stepped through guard, busy flag, result and `finally`, end as the upload transition says, and the returned flag says whether `onUpload` was called |
| `CsvUpload.CsvUploadModal.Close` | src/components/CSVUploadModal.tsx:82-86 | the fields become the state closing gives |
| `CsvUpload.SelectCases` | src/components/CSVUploadModal.tsx:39-50 | picking nothing changes nothing; a CSV file becomes the selection and clears the result; any other file clears the selection and keeps the result |
| `CsvUpload.AcceptanceExamples` | src/components/CSVUploadModal.tsx:42 | a `.csv` name is taken whatever the type, a `text/csv` type whatever the name, and `data.csv.txt` as plain text is refused |
| `CsvUpload.UploadCases` | src/components/CSVUploadModal.tsx:52-80 | without a file nothing is called or changed; with one, `onUpload` is called, the busy flag ends off, the selection stays, and the result is the answer's data, or unchanged when the call threw |
| `CsvUpload.EnabledButtonUploads` | src/components/CSVUploadModal.tsx:53-249 | whenever the button is enabled, pressing it reaches `onUpload` |
| `CsvUpload.CloseClears` | src/components/CSVUploadModal.tsx:82-249 | closing clears the selection and the result, which disables the upload button |
| `CsvUpload.AccountedRows` | src/components/CSVUploadModal.tsx:218-222 | a list of row lines accounts for one error per line |
| `CsvUpload.ErrorLinesShape` | src/components/CSVUploadModal.tsx:211-228 | at most six lines; the first are the first five errors in order; a "more" line ends the list exactly when there are more than five; every error is accounted for once |
| `CsvUpload.RenderField` | src/components/CSVUploadModal.tsx:90-96 | a field fit for the template renders without a line break |
| `CsvUpload.Rendered` | src/components/CSVUploadModal.tsx:90-96 | one rendered text per field, in order |
| `CsvUpload.Texts` | src/components/CSVUploadModal.tsx:90-96 | one text per field, in order |
| `CsvUpload.ReadFrom` | src/components/CSVUploadModal.tsx:90-96 | a quote-aware reading of a line gives at least one field |
| `CsvUpload.ReadLine` | src/components/CSVUploadModal.tsx:90-96 | every line reads as at least one field |
| `CsvUpload.ReadThrough` | src/components/CSVUploadModal.tsx:91 | text without quotes or line breaks, and without commas unless quoted, is read into the current field unchanged |
| `CsvUpload.ReadField` | src/components/CSVUploadModal.tsx:91 | a rendered field read at a field start becomes that field's text |
| `CsvUpload.ReadComma` | src/components/CSVUploadModal.tsx:91 | a comma outside quotes closes the field |
| `CsvUpload.RowCons` | src/components/CSVUploadModal.tsx:91 | a line is its first field, a comma and the line of the rest |
| `CsvUpload.TextsCons` | src/components/CSVUploadModal.tsx:91 | the texts are the first field's text and the texts of the rest |
| `CsvUpload.ReadRow` | src/components/CSVUploadModal.tsx:91-92 | a rendered line reads back as its fields' texts |
| `CsvUpload.TemplateReadsBack` | src/components/CSVUploadModal.tsx:90-96 | a template splits into one part per line, each reading back as its fields' texts |
| `CsvUpload.TemplateAsWritten` | src/components/CSVUploadModal.tsx:88-98 | the template as written has three lines |
| `CsvUpload.Template` | src/components/CSVUploadModal.tsx:88-98 | the corrected template has three lines |
| `CsvUpload.IncomeSamplesOk` | src/components/CSVUploadModal.tsx:91-92 | the income sample rows have five fields, each fit for the template |
| `CsvUpload.ExpenseSamplesOk` | src/components/CSVUploadModal.tsx:95-96 | the expense sample rows have five fields, each fit for the template |
| `CsvUpload.HeadersOk` | src/components/CSVUploadModal.tsx:90-94 | every header is fit for the template |
| `CsvUpload.DatesClean` | src/components/CSVUploadModal.tsx:91-96 | the sample dates hold no quote or line break |
| `CsvUpload.IncomeTextsClean` | src/components/CSVUploadModal.tsx:91-92 | the income samples' texts hold no quote or line break |
| `CsvUpload.ExpenseTextsClean` | src/components/CSVUploadModal.tsx:95-96 | the expense samples' texts hold no quote or line break |
| `CsvUpload.AmountsClean` | src/components/CSVUploadModal.tsx:91-96 | the bare amounts hold no quote, comma or line break |
| `CsvUpload.HeaderNamesClean` | src/components/CSVUploadModal.tsx:90-94 | the bare header names hold no quote, comma or line break |
| `CsvUpload.IncomeFirstSampleOk` | src/components/CSVUploadModal.tsx:91 | the first income sample is fit for the template |
| `CsvUpload.IncomeSecondSampleOk` | src/components/CSVUploadModal.tsx:92 | the second income sample is fit for the template |
| `CsvUpload.ExpenseFirstSampleOk` | src/components/CSVUploadModal.tsx:95 | the first expense sample is fit for the template |
| `CsvUpload.ExpenseSecondSampleOk` | src/components/CSVUploadModal.tsx:96 | the second expense sample is fit for the template |
| `CsvUpload.IncomeHeaderAsWrittenOk` | src/components/CSVUploadModal.tsx:90 | the income header as written is fit for the template |
| `CsvUpload.IncomeHeaderOk` | src/components/CSVUploadModal.tsx:90 | the corrected income header is fit for the template |
| `CsvUpload.ExpenseHeaderOk` | src/components/CSVUploadModal.tsx:94 | the expense header is fit for the template |
| `CsvUpload.IncomeTemplateColumnsDisagree` | src/components/CSVUploadModal.tsx:90-92 | as written, the income template reads back as a header of four fields over rows of five |
| `CsvUpload.TemplateColumnsAgree` | src/components/CSVUploadModal.tsx:88-98 | with the corrected header, every line of either template reads back with the header's five fields |
| `CsvUpload.DownloadName` | src/components/CSVUploadModal.tsx:106 | the template file name ends in `.csv` |
| `CsvUpload.DownloadedTemplateAccepted` | src/components/CSVUploadModal.tsx:42-106 | a downloaded template picked again is accepted, by name alone and by its type, and the two templates' names differ |
| `Text.Truncate` | src/utils/pdfGenerator.ts:71-72 | `substring(0, n)` keeps a prefix of at most n characters: all of a shorter text, exactly n of a longer one |
| `Text.BeforeFirst` | src/pages/IncomeList.tsx:173 | `split('T')[0]` is the prefix before the first `T`: it holds no `T` and is followed by one unless it is the whole text |
| `Text.DigitChar` | src/lib/services/incomeService.ts:125 | a digit value below 10 becomes a digit character |
| `Text.DigitValue` | src/components/CollaboratorSection.tsx:63 | a digit character is worth less than 10 |
| `Text.NatToString` | src/lib/services/incomeService.ts:125 | the decimal text of a natural number is a non-empty run of digits without a leading zero |
| `Text.IntToString` | src/lib/services/incomeService.ts:125 | the decimal text of an integer is non-empty, and all digits exactly when the integer is not negative |
| `Text.LeadingDigits` | src/components/CollaboratorSection.tsx:63 | `parseInt` reads the longest run of digits at the start |
| `Text.TrimStart` | src/components/CollaboratorSection.tsx:63 | `parseInt` skips exactly the leading whitespace, the same ECMAScript set `trim()` removes |
| `Text.LeadingValue` | src/components/CollaboratorSection.tsx:63 | a value is read only when the text starts with a digit |
| `Text.SignedValue` | src/components/CollaboratorSection.tsx:63 | a signed value is read only from text holding a digit |
| `Text.JsParseInt` | src/components/CollaboratorSection.tsx:63 | `parseInt` gives a number only for text holding a digit |
| `Text.IntOr` | src/components/CollaboratorSection.tsx:63 | `parseInt(s) || d` is the parsed number unless it is `NaN` or 0, and `d` then |
| `Text.RealOr` | src/components/IncomeModal.tsx:116 | `parseFloat(s) || d` is the parsed number unless it is `NaN` or 0, and `d` then |
| `Text.NatToStringValue` | src/lib/services/incomeService.ts:125 | the digits of a natural number are worth that number |
| `Text.ParseIntOfNegative` | src/lib/services/incomeService.ts:125 | a minus sign before digits reads back as the negated value |
| `Text.NegativeText` | src/lib/services/incomeService.ts:125 | a negative integer's text is a minus sign and digits worth its magnitude |
| `Text.NonNegativeText` | src/lib/services/incomeService.ts:125 | a non-negative integer's text is digits worth it |
| `Text.SignThenDigits` | src/lib/services/incomeService.ts:125 | a minus sign before a natural number's digits is a sign and digits worth it |
| `Text.IntToStringRoundTrip` | src/lib/services/incomeService.ts:125 | an integer's decimal text reads back as that integer |
| `Text.LeadingDigitsOfDigits` | src/components/CollaboratorSection.tsx:63 | a run of digits is read whole |
| `Text.JsParseIntOfDigits` | src/components/CollaboratorSection.tsx:63 | `parseInt` of digits is their value |
| `Text.SignedValueOfNegative` | src/components/CollaboratorSection.tsx:63 | after a minus sign the digits are read whole and negated |
| `Text.JsParseIntOfNegative` | src/components/CollaboratorSection.tsx:63 | `parseInt` of a minus sign and digits is the negated value |
| `Text.JsParseIntOfIntToString` | src/pages/IncomeList.tsx:326 | a number written as its decimal text reads back through `parseInt` |
| `Text.JsParseIntWithoutDigits` | src/components/CollaboratorSection.tsx:63 | text without any digit is `NaN` for `parseInt` |
| `Text.IntToStringInjective` | src/lib/services/incomeService.ts:125 | different integers have different decimal texts |
| `Text.Split` | src/pages/Reports.tsx:266 | splitting gives at least one piece |
| `Text.AddChar` | src/pages/Reports.tsx:266 | reading a character leaves at least one piece |
| `Text.SplitWithoutSeparator` | src/pages/Reports.tsx:266 | text without the separator splits into itself alone |
| `Text.SplitSnoc` | src/pages/Reports.tsx:266 | splitting a text with one more character is reading that character after the split |
| `Text.AddCharAfter` | src/pages/Reports.tsx:266 | reading a character changes only the last piece |
| `Text.SplitAtSeparator` | src/pages/Reports.tsx:266 | a separator between two texts splits into the pieces of each |
| `Text.SplitChild` | src/lib/services/collaborationService.ts:116 | a separator-free piece after a separator is one more piece |
| `Text.SplitJoin` | src/pages/Reports.tsx:266 | joining pieces without the separator and splitting gives the pieces back |
| `Text.JoinAppend` | src/lib/api.ts:67 | joining two non-empty runs is joining each with one separator between |
| `Text.JoinAvoids` | src/pages/Reports.tsx:266 | a character in neither the pieces nor the separator is not in the joined text |
| `Text.SplitJoinBreaksOnSeparator` | src/pages/Reports.tsx:266 | a field holding the separator comes back as two fields |
| `Common.Filter` | src/pages/IncomeList.tsx:113 | `filter` keeps exactly the elements that pass, and no more of them than there were |
| `Common.SumAppend` | src/pages/Index.tsx:57 | the sum of a concatenation is the sum of the parts |
| `Common.SumIntAppend` | src/components/CollaborationModal.tsx:53 | the integer sum of a concatenation is the sum of the parts |
| `Common.SumIntUpdate` | src/components/CollaboratorSection.tsx:47 | replacing one element changes the integer sum by the difference |
| `Common.SumIntConstant` | src/components/CollaboratorSection.tsx:47 | when every element adds `c`, the sum is the count times `c` |
| `Common.SumNonNegative` | src/pages/Index.tsx:57 | a sum of non-negative values is non-negative |
| `Common.FilterAppend` | src/pages/IncomeList.tsx:113 | filtering a concatenation is concatenating the filtered parts |
| `Common.DisjointFilterSums` | src/pages/IncomeList.tsx:113-116 | two disjoint filters over non-negative values select at most the whole sum |
| `Common.ComplementFilterSums` | src/pages/IncomeList.tsx:113-116 | a filter and its complement split the sum exactly |
| `Common.SumDropsZeros` | src/pages/IncomeList.tsx:147 | dropping only elements worth 0 keeps the sum |
| `Common.FilterKeepsOrder` | src/pages/IncomeList.tsx:147 | `filter` keeps the order of the elements it keeps |
| `Common.KeyTotalAbsent` | src/pages/Reports.tsx:178-181 | a key no element has totals to 0 |
| `Common.KeyTotalIsFilteredSum` | src/pages/IncomeList.tsx:145-146 | a key's group total is the sum of a filter on that key |
| `Common.DistinctKeys` | src/pages/Reports.tsx:183 | the accumulator's keys are distinct, and are exactly the keys that occur |
| `Common.SumKeyTotalsStep` | src/pages/Reports.tsx:178-181 | one more element adds its amount to the total of its key, if listed |
| `Common.GroupTotalsSum` | src/pages/Reports.tsx:178-183 | the group totals add up to the overall total: grouping loses and duplicates nothing |
| `Common.KeyTotalNonNegative` | src/pages/Reports.tsx:178-181 | with non-negative amounts every group total is non-negative |
| `Common.SumKeyTotalsOfNothing` | src/pages/Reports.tsx:178-181 | no elements give group totals adding to 0 |
| `Common.SumKeyTotalsCovering` | src/pages/IncomeList.tsx:143-147 | distinct keys covering every element's key split the total exactly |
| `Api.PathIsJoin` | src/lib/api.ts:94-96 | an item path is `""`, `api`, the resource and the id joined by slashes |
| `PdfReport.CellsAppendOne` | src/utils/pdfGenerator.ts:33 | drawing one more text adds exactly its cell at the end |

## Left out

- Network calls: the axios instance, its interceptors and the login redirect are I/O; the model builds the paths and query strings the services send and takes each call's outcome as a parameter.
- Percent-encoding of query strings: `QueryString` joins `key=value` pairs as they are.
- Dates: `new Date`, `toISOString` and `toLocaleDateString` depend on the time zone; periods are modelled as calendar days, and formatted dates as function parameters.
- The income list's own month range (src/pages/IncomeList.tsx:82-83) is the monthly case of `Reports.SelectPeriod` and is not modelled again.
- The monthly trend loop of the reports page (src/pages/Reports.tsx:200-225) mutates a `Date` object; it is not part of this model.
- The PDF export of the reports page (src/pages/Reports.tsx:235-244) passes an object that lacks the report's collaborators, month and year; only the dashboard's call is modelled.
- Floating point: amounts are exact reals, so rounding in sums and in `toFixed` is not modelled.
- `Date.now()` ids, the signup's clock id and today's date are parameters.
- Toasts, dialogs' open flags other than the ones modelled, charts, fonts, colours of the PDF, `pdf.save` and the file-size display are presentation.
- The settings page, the collaborations page, the summary cards, the router and the not-found page hold no rules beyond display; they are not part of this model.
- The authentication, user and report endpoints of `ENDPOINTS` are constant strings no modelled code uses; `reportsService.ts` is not part of this model.
- JSON parsing and serialising are function parameters; `localStorage` is a map.
- `navigate('/signin')` after a logout and the `onClose` callback of the upload dialog are calls into the router and the parent component.
- `Reports.GroupTotals`: keys are listed in order of first appearance; JavaScript's `Object.entries` lists integer-like keys first, in ascending order, which the model does not capture.
- `Reports.GroupTotals`: a category named like an `Object.prototype` member (`constructor`, `__proto__`) reads an inherited value in the accumulator; the model treats every key as absent until set.
- `IncomeList.CategoryColor`: the same inherited lookup would return a prototype member for such a category; the model returns grey.
- `Text.JsParseInt`: a `0x` prefix is read as hexadecimal by `parseInt`; the model reads the leading `0` only.
- `Text.Truncate`: `substring(0, n)` counts UTF-16 code units, while the model counts code points, so `PdfReport.IncomeRowsAt` and `PdfReport.ExpenseRowsAt` keep a text with characters outside the Basic Multilingual Plane longer than the source does (13 emoji are 26 code units: the source prints 12 emoji and half of the 13th, the model all 13). Dafny's `char` is a Unicode scalar value, so half a surrogate pair cannot be written.
- `Text.RealOr`: `parseFloat` itself is not modelled; its result is a parameter.
- `Auth.CheckAuthNext`: `parse` returns a user or fails; stored text that parses to `null` (`JSON.parse("null")`) sets the user to null and keeps both keys in the source, which the model cannot express. The app itself only ever stores an object there.
- `Auth.MergeFields`: a patch that holds a field set explicitly to `undefined` overwrites it in JavaScript; the model's patch has only present or absent fields.
- `Auth.AuthProvider.Login`: only the final state is modelled; while the request is pending `isLoading` is true.
- `Auth.AuthProvider.Signup`: the one-second wait is not modelled; the final state is.
- `CsvUpload.CsvUploadModal.Upload`: the timer a successful upload starts is modelled as a separate `Close` step, and its two-second delay is not modelled.
- `IncomeList.SaveRequestFor`: the source sends the update to the record's `_id`; the model's record has one `id` field.

## Findings

| source | as written | input that shows it | evidently intended | confidence | as-written member | corrected member |
|---|---|---|---|---|---|---|
| src/components/CSVUploadModal.tsx:90-92 | the income template's header names four columns (`Work Date,Date,Client Name / Company Name,Bill Amount`) while each sample row has five fields | the income template itself: its header reads back as 4 fields and its two rows as 5 | a fifth header name for the job-title column, third in line, as the expense template has `Title` | not executed | `CsvUpload.IncomeTemplateColumnsDisagree` | `CsvUpload.TemplateColumnsAgree` |
