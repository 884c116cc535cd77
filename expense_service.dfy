/** The query strings of src/lib/services/expenseService.ts: `getExpenses`
    appends each filter in a fixed order (lines 102-111), the tax flag
    whenever it is defined and the others when they are truthy;
    `getExpenseStats` appends the two dates (lines 125-127). */
module ExpenseService {
  import opened Common
  import opened Text
  import opened QueryParams
  import Api

  /** `ExpenseFilters`; a missing filter is `None`. */
  datatype ExpenseFilters = ExpenseFilters(
    page: Option<int>,
    limit: Option<int>,
    search: Option<string>,
    category: Option<string>,
    status: Option<string>,
    isTaxDeductible: Option<bool>,
    startDate: Option<string>,
    endDate: Option<string>,
    month: Option<int>,
    year: Option<int>)

  const NoFilters := ExpenseFilters(None, None, None, None, None, None, None, None, None, None)

  /** The value the tax-flag line contributes: `toString()` of the flag
      whenever it is defined, `false` included. */
  function FlagParam(v: Option<bool>): (r: Option<string>)
    ensures r.Some? <==> v.Some?
    ensures v == Some(true) ==> r == Some("true")
    ensures v == Some(false) ==> r == Some("false")
  {
    match v
    case Some(b) => Some(if b then "true" else "false")
    case None => None
  }

  /** The keys in the order of the `append` lines. */
  const ExpenseKeys: seq<string> :=
    ["page", "limit", "search", "category", "status", "isTaxDeductible", "startDate", "endDate", "month", "year"]

  /** What each line would append, or `None` where its test fails. */
  function ExpenseValues(f: ExpenseFilters): (vs: seq<Option<string>>)
    ensures |vs| == |ExpenseKeys|
  {
    [NumberParam(f.page), NumberParam(f.limit), TextParam(f.search), TextParam(f.category),
     TextParam(f.status), FlagParam(f.isTaxDeductible), TextParam(f.startDate), TextParam(f.endDate),
     NumberParam(f.month), NumberParam(f.year)]
  }

  /** The parameters of `getExpenses`, appended line by line. */
  method ExpenseQuery(f: ExpenseFilters) returns (params: seq<Param>)
    ensures params == Pick(ExpenseKeys, ExpenseValues(f))
  {
    // the lines run so far, and what they tested
    params := [];
    PickSnoc([], [], "page", NumberParam(f.page));
    params := AppendIfPresent(params, "page", NumberParam(f.page));
    ghost var keys: seq<string>, vals: seq<Option<string>> := ["page"], [NumberParam(f.page)];
    PickSnoc(keys, vals, "limit", NumberParam(f.limit));
    params := AppendIfPresent(params, "limit", NumberParam(f.limit));
    keys, vals := keys + ["limit"], vals + [NumberParam(f.limit)];
    PickSnoc(keys, vals, "search", TextParam(f.search));
    params := AppendIfPresent(params, "search", TextParam(f.search));
    keys, vals := keys + ["search"], vals + [TextParam(f.search)];
    PickSnoc(keys, vals, "category", TextParam(f.category));
    params := AppendIfPresent(params, "category", TextParam(f.category));
    keys, vals := keys + ["category"], vals + [TextParam(f.category)];
    PickSnoc(keys, vals, "status", TextParam(f.status));
    params := AppendIfPresent(params, "status", TextParam(f.status));
    keys, vals := keys + ["status"], vals + [TextParam(f.status)];
    PickSnoc(keys, vals, "isTaxDeductible", FlagParam(f.isTaxDeductible));
    params := AppendIfPresent(params, "isTaxDeductible", FlagParam(f.isTaxDeductible));
    keys, vals := keys + ["isTaxDeductible"], vals + [FlagParam(f.isTaxDeductible)];
    PickSnoc(keys, vals, "startDate", TextParam(f.startDate));
    params := AppendIfPresent(params, "startDate", TextParam(f.startDate));
    keys, vals := keys + ["startDate"], vals + [TextParam(f.startDate)];
    PickSnoc(keys, vals, "endDate", TextParam(f.endDate));
    params := AppendIfPresent(params, "endDate", TextParam(f.endDate));
    keys, vals := keys + ["endDate"], vals + [TextParam(f.endDate)];
    PickSnoc(keys, vals, "month", NumberParam(f.month));
    params := AppendIfPresent(params, "month", NumberParam(f.month));
    keys, vals := keys + ["month"], vals + [NumberParam(f.month)];
    PickSnoc(keys, vals, "year", NumberParam(f.year));
    params := AppendIfPresent(params, "year", NumberParam(f.year));
    keys, vals := keys + ["year"], vals + [NumberParam(f.year)];
    ExpenseLines(f);
  }

  /** The keys and values, one line at a time. */
  lemma ExpenseLines(f: ExpenseFilters)
    ensures ExpenseKeys == ["page"] + ["limit"] + ["search"] + ["category"] + ["status"] + ["isTaxDeductible"]
      + ["startDate"] + ["endDate"] + ["month"] + ["year"]
    ensures ExpenseValues(f) == [NumberParam(f.page)] + [NumberParam(f.limit)] + [TextParam(f.search)]
      + [TextParam(f.category)] + [TextParam(f.status)] + [FlagParam(f.isTaxDeductible)]
      + [TextParam(f.startDate)] + [TextParam(f.endDate)] + [NumberParam(f.month)] + [NumberParam(f.year)]
  {
  }

  /** The URL `getExpenses` requests. */
  function ExpenseUrl(params: seq<Param>): (u: string)
    ensures StartsWith(u, Api.ExpensesListPath + "?")
  {
    Api.ExpensesListPath + "?" + QueryString(params)
  }

  lemma ExpenseKeysDistinct()
    ensures Distinct(ExpenseKeys)
  {
  }

  /** Each key appears at most once and in the order of the lines; a filter
      is sent exactly when its test passes, with its own text. */
  lemma ExpenseQueryShape(f: ExpenseFilters)
    ensures Distinct(KeysOf(Pick(ExpenseKeys, ExpenseValues(f))))
    ensures forall i, j :: 0 <= i < j < |Pick(ExpenseKeys, ExpenseValues(f))| ==>
      IndexOf(ExpenseKeys, Pick(ExpenseKeys, ExpenseValues(f))[i].0)
        < IndexOf(ExpenseKeys, Pick(ExpenseKeys, ExpenseValues(f))[j].0)
    ensures forall j :: 0 <= j < |ExpenseKeys| ==>
      (ExpenseKeys[j] in KeysOf(Pick(ExpenseKeys, ExpenseValues(f))) <==> ExpenseValues(f)[j].Some?)
  {
    ExpenseKeysDistinct();
    PickDistinct(ExpenseKeys, ExpenseValues(f));
    PickOrdered(ExpenseKeys, ExpenseValues(f));
    forall j | 0 <= j < |ExpenseKeys|
      ensures ExpenseKeys[j] in KeysOf(Pick(ExpenseKeys, ExpenseValues(f))) <==> ExpenseValues(f)[j].Some?
    {
      PickPresence(ExpenseKeys, ExpenseValues(f), j);
    }
  }

  /** Unlike the truthy filters, the tax flag is sent whenever it is
      defined: `false` goes out as "false", and the key is absent only when
      the flag is. */
  lemma TaxFlagSentWhenDefined(f: ExpenseFilters)
    ensures "isTaxDeductible" in KeysOf(Pick(ExpenseKeys, ExpenseValues(f))) <==> f.isTaxDeductible.Some?
    ensures f.isTaxDeductible == Some(false) ==>
      ("isTaxDeductible", "false") in Pick(ExpenseKeys, ExpenseValues(f))
  {
    ExpenseKeysDistinct();
    assert ExpenseKeys[5] == "isTaxDeductible";
    PickPresence(ExpenseKeys, ExpenseValues(f), 5);
  }

  /** Zero is falsy: choosing January (month 0) sends no month at all, so
      the request is not restricted to a month. */
  lemma JanuaryNotSent(f: ExpenseFilters)
    requires f.month == Some(0)
    ensures "month" !in KeysOf(Pick(ExpenseKeys, ExpenseValues(f)))
  {
    ExpenseKeysDistinct();
    assert ExpenseKeys[8] == "month";
    PickPresence(ExpenseKeys, ExpenseValues(f), 8);
  }

  /** No filters, no parameters: the request is the bare list path and a
      question mark. */
  lemma NoFiltersNoParams()
    ensures Pick(ExpenseKeys, ExpenseValues(NoFilters)) == []
    ensures ExpenseUrl([]) == "/api/expenses?"
  {
    PickNothing(ExpenseKeys, ExpenseValues(NoFilters));
  }

  /** The parameters of `getExpenseStats` (lines 125-127). */
  method ExpenseStatsQuery(startDate: Option<string>, endDate: Option<string>) returns (params: seq<Param>)
    ensures params == Pick(DateRangeKeys, [TextParam(startDate), TextParam(endDate)])
  {
    params := [];
    PickSnoc([], [], "startDate", TextParam(startDate));
    params := AppendIfPresent(params, "startDate", TextParam(startDate));
    PickSnoc(["startDate"], [TextParam(startDate)], "endDate", TextParam(endDate));
    params := AppendIfPresent(params, "endDate", TextParam(endDate));
  }

  /** `bulkDeleteExpenses` sends its ids to the delete template applied to
      the word "bulk" (line 181). */
  function BulkDeletePath(): (p: string)
    ensures p == "/api/expenses/bulk"
    ensures Split(p, '/') == ["", "api", "expenses", "bulk"]
  {
    Api.ItemPathSegments("bulk");
    Api.ExpenseItemPath("bulk")
  }
}
