/** The CSV upload dialog (src/components/CSVUploadModal.tsx): which files it
    takes, the upload sequence and its guard, closing, the error list, and
    the downloadable template. The template is kept as rows of fields and
    rendered to text; a quote-aware line reader (commas inside double
    quotes do not split) counts its columns. */
module CsvUpload {
  import opened Common
  import opened Text

  datatype UploadType = IncomeUpload | ExpenseUpload

  /** The `type` prop as text. */
  function TypeName(t: UploadType): string
  {
    match t
    case IncomeUpload => "income"
    case ExpenseUpload => "expense"
  }

  // ---------------------------------------------------------------------
  // File acceptance

  /** A picked file: its name and its MIME type. */
  datatype CsvFile = CsvFile(name: string, mimeType: string)

  /** A file is taken when its type is `text/csv` or its name ends in
      `.csv` (line 42). */
  predicate Accepts(f: CsvFile)
  {
    f.mimeType == "text/csv" || EndsWith(f.name, ".csv")
  }

  /** One row's failure in the server's answer. */
  datatype RowError = RowError(row: int, error: string)

  /** `UploadResult` (lines 16-25). */
  datatype UploadResult = UploadResult(totalProcessed: int, successCount: int, errorCount: int, errors: seq<RowError>)

  /** What `onUpload` did: threw, or answered; `data` is `None` when the
      answer has none. */
  datatype UploadOutcome =
    | UploadThrew
    | UploadAnswered(success: bool, data: Option<UploadResult>, message: string)

  /** The dialog's own state. */
  datatype ModalState = ModalState(selected: Option<CsvFile>, result: Option<UploadResult>, isUploading: bool)

  const Opened := ModalState(None, None, false)

  /** `handleFileSelect` (lines 39-50); `picked` is `files?.[0]`. */
  function SelectNext(s: ModalState, picked: Option<CsvFile>): (r: ModalState)
    ensures r.isUploading == s.isUploading
  {
    match picked
    case None => s
    case Some(f) =>
      if Accepts(f) then ModalState(Some(f), None, s.isUploading)
      else ModalState(None, s.result, s.isUploading)
  }

  /** `handleUpload` (lines 52-80): the state once it has finished, and
      whether it called `onUpload`. */
  function UploadNext(s: ModalState, outcome: UploadOutcome): (r: (ModalState, bool))
    ensures !r.1 ==> r.0 == s
  {
    if s.selected.None? then (s, false)
    else
      match outcome
      case UploadThrew => (ModalState(s.selected, s.result, false), true)
      case UploadAnswered(_, data, _) => (ModalState(s.selected, data, false), true)
  }

  /** `handleClose` (lines 82-86), and the timer a successful upload sets
      (lines 66-70), which does the same. */
  function CloseNext(s: ModalState): (r: ModalState)
    ensures r.isUploading == s.isUploading
  {
    ModalState(None, None, s.isUploading)
  }

  /** Whether the upload button can be pressed (line 249). */
  predicate UploadEnabled(s: ModalState)
  {
    s.selected.Some? && !s.isUploading
  }

  /** Whether a successful answer schedules the closing timer (line 63). */
  predicate SchedulesClose(outcome: UploadOutcome)
  {
    outcome.UploadAnswered? && outcome.success
  }

  class CsvUploadModal {
    var selected: Option<CsvFile>
    var result: Option<UploadResult>
    var isUploading: bool

    function State(): ModalState
      reads this
    {
      ModalState(selected, result, isUploading)
    }

    constructor ()
      ensures State() == Opened
    {
      selected := None;
      result := None;
      isUploading := false;
    }

    method FileSelect(picked: Option<CsvFile>)
      modifies this
      ensures State() == SelectNext(old(State()), picked)
    {
      if picked.Some? {
        var file := picked.value;
        if file.mimeType == "text/csv" || EndsWith(file.name, ".csv") {
          selected := Some(file);
          result := None;
        } else {
          selected := None;
        }
      }
    }

    /** The upload, step by step: the guard, the busy flag on, the result
        of the answer if there is one, the busy flag off in `finally`. */
    method Upload(outcome: UploadOutcome) returns (called: bool)
      modifies this
      ensures (State(), called) == UploadNext(old(State()), outcome)
    {
      if selected.None? {
        return false;
      }
      isUploading := true;
      called := true;
      if outcome.UploadAnswered? {
        result := outcome.data;
      }
      isUploading := false;
    }

    method Close()
      modifies this
      ensures State() == CloseNext(old(State()))
    {
      selected := None;
      result := None;
    }
  }

  /** Picking nothing changes nothing; a CSV file becomes the selection and
      clears the last result; anything else clears the selection and keeps
      the result. */
  lemma SelectCases(s: ModalState, f: CsvFile)
    ensures SelectNext(s, None) == s
    ensures Accepts(f) ==> SelectNext(s, Some(f)).selected == Some(f) && SelectNext(s, Some(f)).result.None?
    ensures !Accepts(f) ==> SelectNext(s, Some(f)).selected.None? && SelectNext(s, Some(f)).result == s.result
  {
  }

  /** The `.csv` test is on the name's end, whatever the type says; and a
      `text/csv` file is taken whatever its name. */
  lemma AcceptanceExamples()
    ensures Accepts(CsvFile("data.csv", "application/vnd.ms-excel"))
    ensures Accepts(CsvFile("export", "text/csv"))
    ensures !Accepts(CsvFile("data.csv.txt", "text/plain"))
  {
    assert "data.csv"[4..] == ".csv";
    assert "data.csv.txt"[8..] == ".txt";
  }

  /** Without a file, an upload does not call `onUpload` and changes
      nothing. With one, it ends with the busy flag off and the selection
      kept; the shown result is the answer's, or the old one when the call
      threw. */
  lemma UploadCases(s: ModalState, outcome: UploadOutcome)
    ensures s.selected.None? ==> UploadNext(s, outcome) == (s, false)
    ensures s.selected.Some? ==> var r := UploadNext(s, outcome);
      && r.1 && !r.0.isUploading && r.0.selected == s.selected
      && (outcome.UploadAnswered? ==> r.0.result == outcome.data)
      && (outcome.UploadThrew? ==> r.0.result == s.result)
  {
  }

  /** Whenever the button is enabled, pressing it reaches `onUpload`. */
  lemma EnabledButtonUploads(s: ModalState, outcome: UploadOutcome)
    requires UploadEnabled(s)
    ensures UploadNext(s, outcome).1
  {
  }

  /** Closing clears the selection and the result, so the upload button is
      then disabled. */
  lemma CloseClears(s: ModalState)
    ensures CloseNext(s).selected.None? && CloseNext(s).result.None?
    ensures !UploadEnabled(CloseNext(s))
  {
  }

  // ---------------------------------------------------------------------
  // The error list

  /** A line of the error list: one row's error, or the count of the rest. */
  datatype ErrorLine = RowLine(row: int, error: string) | MoreLine(count: nat)

  /** The list under the result (lines 211-228): the first five errors,
      then how many more there are when there are more than five. */
  function ErrorLines(errors: seq<RowError>): (lines: seq<ErrorLine>)
  {
    var shown := if |errors| <= 5 then errors else errors[..5];
    seq(|shown|, i requires 0 <= i < |shown| => RowLine(shown[i].row, shown[i].error))
    + (if |errors| > 5 then [MoreLine(|errors| - 5)] else [])
  }

  /** The number of errors the list accounts for: one per row line, plus
      the count a "more" line states. */
  function Accounted(lines: seq<ErrorLine>): nat
  {
    if lines == [] then 0
    else Accounted(lines[..|lines| - 1]) + (match lines[|lines| - 1] case RowLine(_, _) => 1 case MoreLine(n) => n)
  }

  lemma {:induction false} AccountedRows(lines: seq<ErrorLine>)
    requires forall i :: 0 <= i < |lines| ==> lines[i].RowLine?
    ensures Accounted(lines) == |lines|
  {
    if lines != [] {
      AccountedRows(lines[..|lines| - 1]);
    }
  }

  /** At most six lines; the first ones are the first errors in order; the
      "more" line appears exactly when there are more than five errors, and
      the list accounts for every error exactly once. */
  lemma ErrorLinesShape(errors: seq<RowError>)
    ensures var lines := ErrorLines(errors);
      && |lines| == (if |errors| <= 5 then |errors| else 6)
      && (forall i :: 0 <= i < |lines| && i < 5 && i < |errors| ==>
            lines[i] == RowLine(errors[i].row, errors[i].error))
      && (|errors| > 5 <==> lines != [] && lines[|lines| - 1].MoreLine?)
      && Accounted(lines) == |errors|
  {
    var lines := ErrorLines(errors);
    var k := if |errors| <= 5 then |errors| else 5;
    var rows := lines[..k];
    assert forall i :: 0 <= i < |rows| ==> rows[i].RowLine?;
    AccountedRows(rows);
    if |errors| > 5 {
      assert lines == rows + [MoreLine(|errors| - 5)];
      assert lines[..|lines| - 1] == rows;
    } else {
      assert lines == rows;
    }
  }

  // ---------------------------------------------------------------------
  // The template

  /** A template field: written inside double quotes, or bare. */
  datatype Field = Quoted(text: string) | Bare(text: string)

  /** Text with no quote and no line break, and no comma unless
      `commaOk`. */
  predicate Clean(s: string, commaOk: bool)
  {
    forall i :: 0 <= i < |s| ==> s[i] != '"' && s[i] != '\n' && (commaOk || s[i] != ',')
  }

  /** A field the reader gets back unchanged: only a quoted field may hold
      a comma. */
  predicate FieldOk(f: Field)
  {
    Clean(f.text, f.Quoted?)
  }

  predicate FieldsOk(fs: seq<Field>)
  {
    forall i :: 0 <= i < |fs| ==> FieldOk(fs[i])
  }

  function RenderField(f: Field): (r: string)
    ensures FieldOk(f) ==> '\n' !in r
  {
    match f
    case Quoted(t) => "\"" + t + "\""
    case Bare(t) => t
  }

  function Rendered(fs: seq<Field>): (r: seq<string>)
    ensures |r| == |fs| && forall i :: 0 <= i < |fs| ==> r[i] == RenderField(fs[i])
  {
    seq(|fs|, i requires 0 <= i < |fs| => RenderField(fs[i]))
  }

  /** A line of the template: its fields, comma-separated. */
  function RenderRow(fs: seq<Field>): string
  {
    Join(Rendered(fs), ",")
  }

  function Texts(fs: seq<Field>): (r: seq<string>)
    ensures |r| == |fs| && forall i :: 0 <= i < |fs| ==> r[i] == fs[i].text
  {
    seq(|fs|, i requires 0 <= i < |fs| => fs[i].text)
  }

  /** A quote-aware reader of one line: a double quote toggles quoting and
      is dropped, a comma outside quotes ends a field. */
  function ReadFrom(s: string, inQuotes: bool, cur: string): (r: seq<string>)
    ensures |r| >= 1
    decreases |s|
  {
    if s == [] then [cur]
    else if s[0] == '"' then ReadFrom(s[1..], !inQuotes, cur)
    else if s[0] == ',' && !inQuotes then [cur] + ReadFrom(s[1..], false, [])
    else ReadFrom(s[1..], inQuotes, cur + [s[0]])
  }

  function ReadLine(s: string): (r: seq<string>)
    ensures |r| >= 1
  {
    ReadFrom(s, false, [])
  }

  /** Text without quotes, and without commas unless quoted, is copied into
      the current field. */
  lemma {:induction false} ReadThrough(text: string, rest: string, q: bool, cur: string)
    requires Clean(text, q)
    ensures ReadFrom(text + rest, q, cur) == ReadFrom(rest, q, cur + text)
    decreases |text|
  {
    if text == [] {
      assert text + rest == rest && cur + text == cur;
    } else {
      assert (text + rest)[0] == text[0];
      assert (text + rest)[1..] == text[1..] + rest;
      ReadThrough(text[1..], rest, q, cur + [text[0]]);
      assert cur + [text[0]] + text[1..] == cur + text;
    }
  }

  /** A rendered field, read at the start of a field, becomes the current
      field's text. */
  lemma ReadField(f: Field, rest: string)
    requires FieldOk(f)
    ensures ReadFrom(RenderField(f) + rest, false, []) == ReadFrom(rest, false, f.text)
  {
    match f
    case Quoted(t) =>
      var closing := "\"" + rest;
      assert RenderField(f) + rest == "\"" + (t + closing);
      assert ("\"" + (t + closing))[1..] == t + closing;
      ReadThrough(t, closing, true, []);
      assert [] + t == t;
      assert closing[1..] == rest;
    case Bare(t) =>
      ReadThrough(t, rest, false, []);
      assert [] + t == t;
  }

  /** A comma outside quotes closes the field. */
  lemma ReadComma(rest: string, cur: string)
    ensures ReadFrom("," + rest, false, cur) == [cur] + ReadFrom(rest, false, [])
  {
    assert ("," + rest)[1..] == rest;
  }

  /** A line of two or more fields is the first field, a comma, and the
      line of the rest. */
  lemma RowCons(fs: seq<Field>)
    requires |fs| >= 2
    ensures RenderRow(fs) == RenderField(fs[0]) + ("," + RenderRow(fs[1..]))
  {
    var tail := fs[1..];
    assert Rendered(fs) == [RenderField(fs[0])] + Rendered(tail);
    JoinAppend([RenderField(fs[0])], Rendered(tail), ",");
  }

  lemma TextsCons(fs: seq<Field>)
    requires |fs| >= 1
    ensures Texts(fs) == [fs[0].text] + Texts(fs[1..])
  {
  }

  /** A rendered line reads back as its fields' texts. */
  lemma {:induction false} ReadRow(fs: seq<Field>)
    requires |fs| >= 1 && FieldsOk(fs)
    ensures ReadLine(RenderRow(fs)) == Texts(fs)
    decreases |fs|
  {
    TextsCons(fs);
    if |fs| == 1 {
      assert Rendered(fs) == [RenderField(fs[0])];
      ReadField(fs[0], []);
      assert RenderField(fs[0]) + [] == RenderField(fs[0]);
    } else {
      var tail := fs[1..];
      assert FieldsOk(tail) by {
        assert forall i :: 0 <= i < |tail| ==> tail[i] == fs[i + 1];
      }
      ReadRow(tail);
      RowCons(fs);
      ReadField(fs[0], "," + RenderRow(tail));
      ReadComma(RenderRow(tail), fs[0].text);
    }
  }

  /** The template as lines of fields, and as text. */
  function TemplateText(lines: seq<seq<Field>>): string
  {
    Join(seq(|lines|, i requires 0 <= i < |lines| => RenderRow(lines[i])), "\n")
  }

  /** A template reads back line by line and field by field. */
  lemma TemplateReadsBack(lines: seq<seq<Field>>)
    requires |lines| >= 1
    requires forall i :: 0 <= i < |lines| ==> |lines[i]| >= 1 && FieldsOk(lines[i])
    ensures |Split(TemplateText(lines), '\n')| == |lines|
    ensures forall i :: 0 <= i < |lines| ==> ReadLine(Split(TemplateText(lines), '\n')[i]) == Texts(lines[i])
  {
    var rows := seq(|lines|, i requires 0 <= i < |lines| => RenderRow(lines[i]));
    forall i | 0 <= i < |rows|
      ensures '\n' !in rows[i]
    {
      var r := Rendered(lines[i]);
      JoinAvoids(r, ",", '\n');
    }
    SplitJoin(rows, '\n');
    forall i | 0 <= i < |lines|
      ensures ReadLine(rows[i]) == Texts(lines[i])
    {
      ReadRow(lines[i]);
    }
  }

  /** The two sample rows of each template. */
  const IncomeSamples: seq<seq<Field>> := [
    [Quoted("Apr 1, 2025"), Quoted("Apr 8, 2025"), Quoted("Website Development"), Quoted("Lay Leng"), Bare("22.5")],
    [Quoted("Apr 2, 2025"), Quoted("Apr 9, 2025"), Quoted("HTML and Tailwind CSS wizard"), Quoted("Immowi International"), Bare("180")]
  ]
  const ExpenseSamples: seq<seq<Field>> := [
    [Quoted("Apr 1, 2025"), Quoted("Apr 8, 2025"), Quoted("Software Subscription"), Quoted("Adobe"), Bare("29.99")],
    [Quoted("Apr 2, 2025"), Quoted("Apr 9, 2025"), Quoted("Office Supplies"), Quoted("Staples"), Bare("45.50")]
  ]
  const ExpenseHeader: seq<Field> := [Bare("Work Date"), Bare("Date"), Bare("Title"), Bare("Vendor"), Bare("Amount")]

  /** The income header as written (line 90): four names over rows of five
      fields. */
  const IncomeHeaderAsWritten: seq<Field> :=
    [Bare("Work Date"), Bare("Date"), Bare("Client Name / Company Name"), Bare("Bill Amount")]

  /** `getCSVTemplate` as written (lines 88-98). */
  function TemplateAsWritten(t: UploadType): (lines: seq<seq<Field>>)
    ensures |lines| == 3
  {
    match t
    case IncomeUpload => [IncomeHeaderAsWritten] + IncomeSamples
    case ExpenseUpload => [ExpenseHeader] + ExpenseSamples
  }

  /** The income header with a name for each of the five columns the
      sample rows have: the third one holds the job title. */
  const IncomeHeader: seq<Field> :=
    [Bare("Work Date"), Bare("Date"), Bare("Job Title"), Bare("Client Name / Company Name"), Bare("Bill Amount")]

  /** The template with one header name per column. */
  function Template(t: UploadType): (lines: seq<seq<Field>>)
    ensures |lines| == 3
  {
    match t
    case IncomeUpload => [IncomeHeader] + IncomeSamples
    case ExpenseUpload => [ExpenseHeader] + ExpenseSamples
  }

  lemma IncomeSamplesOk()
    ensures forall i :: 0 <= i < 2 ==> |IncomeSamples[i]| == 5 && FieldsOk(IncomeSamples[i])
  {
    IncomeFirstSampleOk();
    IncomeSecondSampleOk();
  }

  lemma ExpenseSamplesOk()
    ensures forall i :: 0 <= i < 2 ==> |ExpenseSamples[i]| == 5 && FieldsOk(ExpenseSamples[i])
  {
    ExpenseFirstSampleOk();
    ExpenseSecondSampleOk();
  }

  lemma HeadersOk()
    ensures FieldsOk(IncomeHeaderAsWritten) && FieldsOk(IncomeHeader) && FieldsOk(ExpenseHeader)
  {
    IncomeHeaderAsWrittenOk();
    IncomeHeaderOk();
    ExpenseHeaderOk();
  }

  /** The sample dates. */
  lemma DatesClean()
    ensures Clean("Apr 1, 2025", true)
    ensures Clean("Apr 8, 2025", true)
    ensures Clean("Apr 2, 2025", true)
    ensures Clean("Apr 9, 2025", true)
  {
  }

  /** The income samples' titles and clients. */
  lemma IncomeTextsClean()
    ensures Clean("Website Development", true)
    ensures Clean("Lay Leng", true)
    ensures Clean("HTML and Tailwind CSS wizard", true)
    ensures Clean("Immowi International", true)
  {
  }

  /** The expense samples' titles and vendors. */
  lemma ExpenseTextsClean()
    ensures Clean("Software Subscription", true)
    ensures Clean("Adobe", true)
    ensures Clean("Office Supplies", true)
    ensures Clean("Staples", true)
  {
  }

  /** The sample amounts. */
  lemma AmountsClean()
    ensures Clean("22.5", false)
    ensures Clean("180", false)
    ensures Clean("29.99", false)
    ensures Clean("45.50", false)
  {
  }

  /** The header names. */
  lemma HeaderNamesClean()
    ensures Clean("Work Date", false)
    ensures Clean("Date", false)
    ensures Clean("Client Name / Company Name", false)
    ensures Clean("Bill Amount", false)
    ensures Clean("Job Title", false)
    ensures Clean("Title", false)
    ensures Clean("Vendor", false)
    ensures Clean("Amount", false)
  {
  }

  lemma IncomeFirstSampleOk()
    ensures FieldsOk(IncomeSamples[0])
  {
    DatesClean();
    IncomeTextsClean();
    AmountsClean();
  }

  lemma IncomeSecondSampleOk()
    ensures FieldsOk(IncomeSamples[1])
  {
    DatesClean();
    IncomeTextsClean();
    AmountsClean();
  }

  lemma ExpenseFirstSampleOk()
    ensures FieldsOk(ExpenseSamples[0])
  {
    DatesClean();
    ExpenseTextsClean();
    AmountsClean();
  }

  lemma ExpenseSecondSampleOk()
    ensures FieldsOk(ExpenseSamples[1])
  {
    DatesClean();
    ExpenseTextsClean();
    AmountsClean();
  }

  lemma IncomeHeaderAsWrittenOk()
    ensures FieldsOk(IncomeHeaderAsWritten)
  {
    HeaderNamesClean();
  }

  lemma IncomeHeaderOk()
    ensures FieldsOk(IncomeHeader)
  {
    HeaderNamesClean();
  }

  lemma ExpenseHeaderOk()
    ensures FieldsOk(ExpenseHeader)
  {
    HeaderNamesClean();
  }

  /** As written, the income template reads back with a four-column header
      over five-column rows: the "Lay Leng" client column has no name, and
      a reader that maps fields to header names by position puts the
      client under "Client Name / Company Name" only by accident of an
      extra column. */
  lemma IncomeTemplateColumnsDisagree()
    ensures var lines := Split(TemplateText(TemplateAsWritten(IncomeUpload)), '\n');
      |lines| == 3 && |ReadLine(lines[0])| == 4 && |ReadLine(lines[1])| == 5 && |ReadLine(lines[2])| == 5
  {
    IncomeSamplesOk();
    HeadersOk();
    TemplateReadsBack(TemplateAsWritten(IncomeUpload));
  }

  /** With the corrected header, every line of either template reads back
      with as many fields as the header names. */
  lemma TemplateColumnsAgree(t: UploadType)
    ensures var lines := Split(TemplateText(Template(t)), '\n');
      |lines| == 3 && forall i :: 0 <= i < 3 ==> |ReadLine(lines[i])| == |Template(t)[0]| == 5
  {
    IncomeSamplesOk();
    ExpenseSamplesOk();
    HeadersOk();
    TemplateReadsBack(Template(t));
  }

  /** The name the template downloads under (line 106). */
  function DownloadName(t: UploadType): (name: string)
    ensures EndsWith(name, ".csv")
  {
    var name := TypeName(t) + "_template.csv";
    assert name[|name| - 4..] == ".csv";
    name
  }

  /** A downloaded template, picked again, is accepted: by its name alone,
      and by its `text/csv` type. The two names differ. */
  lemma DownloadedTemplateAccepted(t: UploadType, mimeType: string)
    ensures Accepts(CsvFile(DownloadName(t), mimeType))
    ensures DownloadName(IncomeUpload) != DownloadName(ExpenseUpload)
  {
    assert DownloadName(IncomeUpload)[0] == 'i';
    assert DownloadName(ExpenseUpload)[0] == 'e';
  }
}
