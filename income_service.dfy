/** The query strings of src/lib/services/incomeService.ts: `getIncome`
    appends each filter that is truthy, in a fixed order (lines 121-137);
    `getIncomeStats` appends the two dates (lines 145-152). */
module IncomeService {
  import opened Common
  import opened Text
  import opened QueryParams
  import Api

  /** `IncomeFilters`; a missing filter is `None`. */
  datatype IncomeFilters = IncomeFilters(
    page: Option<int>,
    limit: Option<int>,
    search: Option<string>,
    category: Option<string>,
    paymentStatus: Option<string>,
    startDate: Option<string>,
    endDate: Option<string>,
    month: Option<int>,
    year: Option<int>)

  const NoFilters := IncomeFilters(None, None, None, None, None, None, None, None, None)

  /** The keys in the order of the `append` lines. */
  const IncomeKeys: seq<string> :=
    ["page", "limit", "search", "category", "paymentStatus", "startDate", "endDate", "month", "year"]

  /** What each line would append, or `None` where the filter is falsy. */
  function IncomeValues(f: IncomeFilters): (vs: seq<Option<string>>)
    ensures |vs| == |IncomeKeys|
  {
    [NumberParam(f.page), NumberParam(f.limit), TextParam(f.search), TextParam(f.category),
     TextParam(f.paymentStatus), TextParam(f.startDate), TextParam(f.endDate),
     NumberParam(f.month), NumberParam(f.year)]
  }

  /** The keys and values, one line at a time. */
  lemma IncomeLines(f: IncomeFilters)
    ensures IncomeKeys == ["page"] + ["limit"] + ["search"] + ["category"] + ["paymentStatus"]
      + ["startDate"] + ["endDate"] + ["month"] + ["year"]
    ensures IncomeValues(f) == [NumberParam(f.page)] + [NumberParam(f.limit)] + [TextParam(f.search)]
      + [TextParam(f.category)] + [TextParam(f.paymentStatus)] + [TextParam(f.startDate)]
      + [TextParam(f.endDate)] + [NumberParam(f.month)] + [NumberParam(f.year)]
  {
  }

  /** The parameters of `getIncome`, appended line by line. */
  method IncomeQuery(f: IncomeFilters) returns (params: seq<Param>)
    ensures params == Pick(IncomeKeys, IncomeValues(f))
  {
    // the lines run so far, and what they tested
    params := [];
    PickSnoc([], [], "page", NumberParam(f.page));
    params := AppendIfPresent(params, "page", NumberParam(f.page));
    ghost var keys: seq<string>, vals: seq<Option<string>> := ["page"], [NumberParam(f.page)];
    PickSnoc(keys, vals, "limit", NumberParam(f.limit));
    params := AppendIfPresent(params, "limit", NumberParam(f.limit));
    keys, vals := keys + ["limit"], vals + [NumberParam(f.limit)];
    PickSnoc(keys, vals, "search", TextParam(f.search));
    params := AppendIfPresent(params, "search", TextParam(f.search));
    keys, vals := keys + ["search"], vals + [TextParam(f.search)];
    PickSnoc(keys, vals, "category", TextParam(f.category));
    params := AppendIfPresent(params, "category", TextParam(f.category));
    keys, vals := keys + ["category"], vals + [TextParam(f.category)];
    PickSnoc(keys, vals, "paymentStatus", TextParam(f.paymentStatus));
    params := AppendIfPresent(params, "paymentStatus", TextParam(f.paymentStatus));
    keys, vals := keys + ["paymentStatus"], vals + [TextParam(f.paymentStatus)];
    PickSnoc(keys, vals, "startDate", TextParam(f.startDate));
    params := AppendIfPresent(params, "startDate", TextParam(f.startDate));
    keys, vals := keys + ["startDate"], vals + [TextParam(f.startDate)];
    PickSnoc(keys, vals, "endDate", TextParam(f.endDate));
    params := AppendIfPresent(params, "endDate", TextParam(f.endDate));
    keys, vals := keys + ["endDate"], vals + [TextParam(f.endDate)];
    PickSnoc(keys, vals, "month", NumberParam(f.month));
    params := AppendIfPresent(params, "month", NumberParam(f.month));
    keys, vals := keys + ["month"], vals + [NumberParam(f.month)];
    PickSnoc(keys, vals, "year", NumberParam(f.year));
    params := AppendIfPresent(params, "year", NumberParam(f.year));
    keys, vals := keys + ["year"], vals + [NumberParam(f.year)];
    IncomeLines(f);
  }

  /** The URL `getIncome` requests. */
  function IncomeUrl(params: seq<Param>): string
  {
    Api.IncomeListPath + "?" + QueryString(params)
  }

  lemma IncomeKeysDistinct()
    ensures Distinct(IncomeKeys)
  {
  }

  /** Each key appears at most once and in the order of the lines; a filter
      is sent exactly when it is truthy, with its own text. In particular
      January (month 0), page 0 and empty texts are not sent. */
  lemma IncomeQueryShape(f: IncomeFilters)
    ensures Distinct(KeysOf(Pick(IncomeKeys, IncomeValues(f))))
    ensures forall i, j :: 0 <= i < j < |Pick(IncomeKeys, IncomeValues(f))| ==>
      IndexOf(IncomeKeys, Pick(IncomeKeys, IncomeValues(f))[i].0)
        < IndexOf(IncomeKeys, Pick(IncomeKeys, IncomeValues(f))[j].0)
    ensures forall j :: 0 <= j < |IncomeKeys| ==>
      (IncomeKeys[j] in KeysOf(Pick(IncomeKeys, IncomeValues(f))) <==> IncomeValues(f)[j].Some?)
    ensures "month" in KeysOf(Pick(IncomeKeys, IncomeValues(f))) <==> f.month.Some? && f.month.value != 0
  {
    IncomeKeysDistinct();
    PickDistinct(IncomeKeys, IncomeValues(f));
    PickOrdered(IncomeKeys, IncomeValues(f));
    forall j | 0 <= j < |IncomeKeys|
      ensures IncomeKeys[j] in KeysOf(Pick(IncomeKeys, IncomeValues(f))) <==> IncomeValues(f)[j].Some?
    {
      PickPresence(IncomeKeys, IncomeValues(f), j);
    }
    assert IncomeKeys[7] == "month";
  }

  /** No filters, no parameters: the request is the bare list path and a
      question mark. */
  lemma NoFiltersNoParams()
    ensures Pick(IncomeKeys, IncomeValues(NoFilters)) == []
    ensures IncomeUrl([]) == "/api/income?"
  {
    PickNothing(IncomeKeys, IncomeValues(NoFilters));
  }

  /** The parameters of `getIncomeStats` (lines 145-152). */
  method IncomeStatsQuery(startDate: Option<string>, endDate: Option<string>) returns (params: seq<Param>)
    ensures params == Pick(DateRangeKeys, [TextParam(startDate), TextParam(endDate)])
  {
    params := [];
    PickSnoc([], [], "startDate", TextParam(startDate));
    params := AppendIfPresent(params, "startDate", TextParam(startDate));
    PickSnoc(["startDate"], [TextParam(startDate)], "endDate", TextParam(endDate));
    params := AppendIfPresent(params, "endDate", TextParam(endDate));
  }
}
