/** The API helpers of src/lib/api.ts that do not touch the network: the
    error-message flattening `handleApiError` and the income and expense
    paths of `ENDPOINTS`. */
module Api {
  import opened Common
  import opened Text

  // ---------------------------------------------------------------------
  // handleApiError (lines 61-71)

  /** The body of an error response, as far as the helper reads it: the
      `message` field and the `msg` of each entry of `errors`. */
  datatype ErrorBody = ErrorBody(message: Option<string>, errors: Option<seq<string>>)

  /** What was thrown: an axios error (with the body of the response, when
      there was one), another `Error`, or any other value. */
  datatype Thrown =
    | AxiosFailure(axiosMessage: string, body: Option<ErrorBody>)
    | OtherError(message: string)
    | NotAnError

  const UnexpectedMessage := "An unexpected error occurred"

  /** A non-empty `message` in the body wins; otherwise a present `errors`
      list (an array is truthy even when empty) gives its `msg`s joined by
      ", "; otherwise an `Error`'s own message, and for anything else the
      generic text. */
  function ApiErrorMessage(e: Thrown): (m: string)
    ensures e.AxiosFailure? && e.body.Some? && e.body.value.message.Some? && e.body.value.message.value != "" ==>
      m == e.body.value.message.value
    ensures e.AxiosFailure? && e.body.Some? && (e.body.value.message.None? || e.body.value.message.value == "")
            && e.body.value.errors.Some? ==>
      m == Join(e.body.value.errors.value, ", ")
    ensures e.AxiosFailure? && (e.body.None? || ((e.body.value.message.None? || e.body.value.message.value == "")
            && e.body.value.errors.None?)) ==>
      m == e.axiosMessage
    ensures e.OtherError? ==> m == e.message
    ensures e.NotAnError? ==> m == UnexpectedMessage
  {
    match e
    case AxiosFailure(axiosMessage, body) =>
      if body.Some? && body.value.message.Some? && body.value.message.value != "" then body.value.message.value
      else if body.Some? && body.value.errors.Some? then Join(body.value.errors.value, ", ")
      else axiosMessage
    case OtherError(message) => message
    case NotAnError => UnexpectedMessage
  }

  /** The body's message is preferred to its error list, whatever the
      list holds. */
  lemma MessageBeatsErrors(axiosMessage: string, message: string, errors: Option<seq<string>>)
    requires message != ""
    ensures ApiErrorMessage(AxiosFailure(axiosMessage, Some(ErrorBody(Some(message), errors)))) == message
  {
  }

  /** A single validation error is reported as its own text, and an empty
      error list yields an empty message rather than the axios one. */
  lemma ErrorListEdges(axiosMessage: string, msg: string)
    ensures ApiErrorMessage(AxiosFailure(axiosMessage, Some(ErrorBody(None, Some([msg]))))) == msg
    ensures ApiErrorMessage(AxiosFailure(axiosMessage, Some(ErrorBody(None, Some([]))))) == ""
  {
  }

  /** When no `msg` holds a comma, the flattened text splits back into the
      messages (each after the first keeps the space of the separator). */
  lemma {:induction false} ErrorsReadBack(msgs: seq<string>)
    requires |msgs| >= 1
    requires forall i :: 0 <= i < |msgs| ==> ',' !in msgs[i]
    ensures var pieces := Split(Join(msgs, ", "), ',');
      && |pieces| == |msgs|
      && pieces[0] == msgs[0]
      && forall i :: 1 <= i < |msgs| ==> pieces[i] == " " + msgs[i]
  {
    var spaced := [msgs[0]] + seq(|msgs| - 1, i requires 0 <= i < |msgs| - 1 => " " + msgs[i + 1]);
    JoinWithSpace(msgs);
    assert forall i :: 0 <= i < |spaced| ==> ',' !in spaced[i] by {
      forall i | 0 <= i < |spaced|
        ensures ',' !in spaced[i]
      {
        if i > 0 {
          assert spaced[i] == " " + msgs[i];
        }
      }
    }
    SplitJoin(spaced, ',');
    assert forall i :: 1 <= i < |msgs| ==> spaced[i] == " " + msgs[i];
  }

  /** `xs.join(", ")` is the first piece, then each further piece after ","
      and a space. */
  lemma {:induction false} JoinWithSpace(msgs: seq<string>)
    requires |msgs| >= 1
    ensures Join(msgs, ", ")
         == Join([msgs[0]] + seq(|msgs| - 1, i requires 0 <= i < |msgs| - 1 => " " + msgs[i + 1]), ",")
  {
    var spaced := [msgs[0]] + seq(|msgs| - 1, i requires 0 <= i < |msgs| - 1 => " " + msgs[i + 1]);
    if |msgs| > 1 {
      var init := msgs[..|msgs| - 1];
      JoinWithSpace(init);
      var spacedInit := [init[0]] + seq(|init| - 1, i requires 0 <= i < |init| - 1 => " " + init[i + 1]);
      assert spaced[..|spaced| - 1] == spacedInit;
      assert spaced[|spaced| - 1] == " " + msgs[|msgs| - 1];
    }
  }

  // ---------------------------------------------------------------------
  // ENDPOINTS (lines 91-108)

  const IncomeListPath := "/api/income"
  const IncomeStatsPath := "/api/income/stats"
  const IncomeUploadPath := "/api/income/upload-csv"
  const ExpensesListPath := "/api/expenses"
  const ExpensesStatsPath := "/api/expenses/stats"
  const ExpensesUploadPath := "/api/expenses/upload-csv"

  /** `INCOME.DETAIL`, `INCOME.UPDATE` and `INCOME.DELETE` are the same
      template: the list path, a slash, the id. */
  function IncomeItemPath(id: string): (p: string)
    ensures StartsWith(p, IncomeListPath + "/") && p[|IncomeListPath| + 1..] == id
  {
    IncomeListPath + "/" + id
  }

  /** `EXPENSES.DETAIL`, `EXPENSES.UPDATE` and `EXPENSES.DELETE`. */
  function ExpenseItemPath(id: string): (p: string)
    ensures StartsWith(p, ExpensesListPath + "/") && p[|ExpensesListPath| + 1..] == id
  {
    ExpensesListPath + "/" + id
  }

  /** An id without a slash is the path's last segment, so different ids
      address different paths. */
  lemma ItemPathSegments(id: string)
    requires '/' !in id
    ensures Split(IncomeItemPath(id), '/') == ["", "api", "income", id]
    ensures Split(ExpenseItemPath(id), '/') == ["", "api", "expenses", id]
  {
    PathIsJoin("income", id);
    PathIsJoin("expenses", id);
    assert IncomeItemPath(id) == "/api/" + "income" + "/" + id;
    assert ExpenseItemPath(id) == "/api/" + "expenses" + "/" + id;
    assert forall k :: 0 <= k < 4 ==> '/' !in ["", "api", "income", id][k];
    assert forall k :: 0 <= k < 4 ==> '/' !in ["", "api", "expenses", id][k];
    SplitJoin(["", "api", "income", id], '/');
    SplitJoin(["", "api", "expenses", id], '/');
  }

  lemma PathIsJoin(resource: string, id: string)
    ensures Join(["", "api", resource, id], "/") == "/api/" + resource + "/" + id
  {
    assert ["", "api", resource, id][..3] == ["", "api", resource];
    assert ["", "api", resource][..2] == ["", "api"];
    assert ["", "api"][..1] == [""];
    assert Join(["", "api"], "/") == "/api";
    assert Join(["", "api", resource], "/") == "/api" + "/" + resource;
  }

  /** The item template does not tell ids from the fixed routes below the
      list path: the id "stats" addresses the statistics path and "bulk" the
      bulk-delete path. */
  lemma ItemPathMeetsFixedRoutes()
    ensures IncomeItemPath("stats") == IncomeStatsPath
    ensures ExpenseItemPath("stats") == ExpensesStatsPath
    ensures ExpenseItemPath("bulk") == "/api/expenses/bulk"
  {
  }
}
