/**
 * The `search_products` tool (src/tools/search-products.ts): a GET to the
 * legacy full-text search with fixed flags, paging, optional filters and a
 * comma-joined field list.
 */
module SearchProducts {
  import opened Wrappers
  import opened Text
  import opened Records
  import Schema
  import OffApi

  const Endpoint := "/cgi/search.pl"

  /** The product fields asked for when the caller names none. */
  const DefaultFields: seq<string> :=
    ["code", "product_name", "brands", "categories", "nutriscore_grade", "nova_group", "image_url", "quantity"]

  const SortOrders: set<string> :=
    {"popularity", "product_name", "created_t", "last_modified_t", "nutriscore_score", "nova_score"}

  const DefaultPage := 1
  const DefaultPageSize := 24
  const MaxPageSize := 100

  const Contract := Schema.Contract(
    {"query", "categories_tags", "brands_tags", "nutrition_grades_tags", "sort_by", "page", "page_size", "fields"},
    map["q" := "query", "search" := "query"])

  /** Every query parameter the handler can send. */
  const ParamKeys: set<string> :=
    {"page", "page_size", "json", "search_simple", "action", "search_terms", "categories_tags",
     "brands_tags", "nutrition_grades_tags", "sort_by", "fields"}

  /** The arguments as a caller gives them: every field may be left out. */
  datatype SearchInput = SearchInput(
    query: Option<string>, categoriesTags: Option<string>, brandsTags: Option<string>,
    nutritionGradesTags: Option<string>, sortBy: Option<string>, page: Option<int>,
    pageSize: Option<int>, fields: Option<seq<string>>)

  /** The arguments the handler sees, with the paging defaults filled in. */
  datatype SearchArgs = SearchArgs(
    query: Option<string>, categoriesTags: Option<string>, brandsTags: Option<string>,
    nutritionGradesTags: Option<string>, sortBy: Option<string>, page: int, pageSize: int,
    fields: Option<seq<string>>)

  predicate Valid(a: SearchArgs) {
    && (a.sortBy.None? || a.sortBy.value in SortOrders)
    && DefaultPage <= a.page
    && 1 <= a.pageSize <= MaxPageSize
  }

  /** The input contract: a known sort order, a page of at least 1, a page size in [1, 100]; defaults 1 and 24. */
  function Validate(i: SearchInput): (r: Option<SearchArgs>)
    ensures r.Some? <==>
      && (i.sortBy.None? || i.sortBy.value in SortOrders)
      && (i.page.None? || 1 <= i.page.value)
      && (i.pageSize.None? || 1 <= i.pageSize.value <= 100)
    ensures r.Some? ==> Valid(r.value)
    ensures r.Some? ==> r.value.page == (if i.page.Some? then i.page.value else 1)
    ensures r.Some? ==> r.value.pageSize == (if i.pageSize.Some? then i.pageSize.value else 24)
    ensures r.Some? ==>
      && r.value.query == i.query && r.value.categoriesTags == i.categoriesTags
      && r.value.brandsTags == i.brandsTags && r.value.nutritionGradesTags == i.nutritionGradesTags
      && r.value.sortBy == i.sortBy && r.value.fields == i.fields
  {
    var a := SearchArgs(i.query, i.categoriesTags, i.brandsTags, i.nutritionGradesTags, i.sortBy,
                        i.page.GetOr(DefaultPage), i.pageSize.GetOr(DefaultPageSize), i.fields);
    if Valid(a) then Some(a) else None
  }

  /** The parameters every search carries: paging as decimal text and the three fixed flags. */
  function FixedParams(a: SearchArgs): map<string, string> {
    map["page" := IntToString(a.page), "page_size" := IntToString(a.pageSize),
        "json" := "1", "search_simple" := "1", "action" := "process"]
  }

  /** The optional filters, each sent under its own name when it is a non-empty string. */
  function Filters(a: SearchArgs): seq<(string, Option<string>)> {
    [("search_terms", a.query), ("categories_tags", a.categoriesTags), ("brands_tags", a.brandsTags),
     ("nutrition_grades_tags", a.nutritionGradesTags), ("sort_by", a.sortBy)]
  }

  /** The query the handler sends. */
  function SearchParams(a: SearchArgs): map<string, string> {
    PutEach(FixedParams(a), IfTruthy, Filters(a))["fields" := Join(a.fields.GetOr(DefaultFields), ',')]
  }

  /** Only the eleven known parameters are ever sent, and the fixed ones always are. */
  lemma SearchParamsKeys(a: SearchArgs)
    ensures FixedParams(a).Keys + {"fields"} <= SearchParams(a).Keys <= ParamKeys
  {
    PutEachKeys(FixedParams(a), IfTruthy, Filters(a));
    var es := Filters(a);
    assert Names(es) <= ParamKeys by {
      forall k | k in Names(es) ensures k in ParamKeys {
        var i :| 0 <= i < |es| && es[i].0 == k;
      }
    }
  }

  /** Paging always goes out as decimal text. */
  lemma SearchParamsPaging(a: SearchArgs)
    ensures var p := SearchParams(a);
      && "page" in p && p["page"] == IntToString(a.page)
      && "page_size" in p && p["page_size"] == IntToString(a.pageSize)
  {
    PutEachOther(FixedParams(a), IfTruthy, Filters(a), "page");
    PutEachOther(FixedParams(a), IfTruthy, Filters(a), "page_size");
  }

  /** The three fixed flags select the JSON full-text search. */
  lemma SearchParamsFlags(a: SearchArgs)
    ensures var p := SearchParams(a);
      && "json" in p && p["json"] == "1"
      && "search_simple" in p && p["search_simple"] == "1"
      && "action" in p && p["action"] == "process"
  {
    PutEachOther(FixedParams(a), IfTruthy, Filters(a), "json");
    PutEachOther(FixedParams(a), IfTruthy, Filters(a), "search_simple");
    PutEachOther(FixedParams(a), IfTruthy, Filters(a), "action");
  }

  /** Each filter is sent, under its own name and with its own value, exactly when it is a non-empty string. */
  lemma SearchParamsFilter(a: SearchArgs, i: nat)
    requires i < |Filters(a)|
    ensures var (name, value) := Filters(a)[i]; var p := SearchParams(a);
      && (name in p <==> Truthy(value))
      && (name in p ==> p[name] == value.value)
  {
    PutEachAt(FixedParams(a), IfTruthy, Filters(a), i);
  }

  /** `fields` is the comma-join of the caller's list, or of the default list when none is given. */
  lemma SearchParamsFields(a: SearchArgs)
    ensures var p := SearchParams(a);
      "fields" in p && p["fields"] == Join(a.fields.GetOr(DefaultFields), ',')
  {
  }

  /** The handler: fills `params` key by key, then calls `offGet`. */
  method Search(c: OffApi.Config, a: SearchArgs, response: OffApi.Response) returns (x: OffApi.Exchange)
    ensures x == OffApi.GetExchange(c, Endpoint, Some(SearchParams(a)), response)
  {
    var params := map["page" := IntToString(a.page), "page_size" := IntToString(a.pageSize),
                      "json" := "1", "search_simple" := "1", "action" := "process"];
    ghost var es := Filters(a);
    // Each step is checked as `Some(params) == Some(...)`: the wrapper makes the
    // prover match the two records as terms rather than key by key.
    if Truthy(a.query) {
      params := params["search_terms" := a.query.value];
    }
    assert Some(params) == Some(PutFirst(FixedParams(a), IfTruthy, es, 1));
    if Truthy(a.categoriesTags) {
      params := params["categories_tags" := a.categoriesTags.value];
    }
    assert Some(params) == Some(PutFirst(FixedParams(a), IfTruthy, es, 2));
    if Truthy(a.brandsTags) {
      params := params["brands_tags" := a.brandsTags.value];
    }
    assert Some(params) == Some(PutFirst(FixedParams(a), IfTruthy, es, 3));
    if Truthy(a.nutritionGradesTags) {
      params := params["nutrition_grades_tags" := a.nutritionGradesTags.value];
    }
    assert Some(params) == Some(PutFirst(FixedParams(a), IfTruthy, es, 4));
    if Truthy(a.sortBy) {
      params := params["sort_by" := a.sortBy.value];
    }
    assert Some(params) == Some(PutFirst(FixedParams(a), IfTruthy, es, 5));
    params := params["fields" := Join(a.fields.GetOr(DefaultFields), ',')];
    x := OffApi.OffGet(c, Endpoint, Some(params), response);
  }

  /** No default field name contains the separator. */
  lemma DefaultFieldsUnseparated()
    ensures forall k :: 0 <= k < |DefaultFields| ==> ',' !in DefaultFields[k]
  {
  }

  /** The default list reads back as itself. */
  lemma DefaultFieldsReadBack()
    ensures Split(Join(DefaultFields, ','), ',') == DefaultFields
  {
    DefaultFieldsUnseparated();
    SplitJoin(DefaultFields, ',');
  }

  /** The default list has `code` and `product_name` and leaves out `nutriments`. */
  lemma DefaultFieldsContent()
    ensures "code" in DefaultFields && "product_name" in DefaultFields && "nutriments" !in DefaultFields
  {
  }

  /** Each default name lacks one of the letters `u`, `t`, `i` and `m` of `nutriments`. */
  lemma DefaultFieldsLackNutriments(k: nat)
    requires k < |DefaultFields|
    ensures !Contains(DefaultFields[k], "nutriments")
  {
    var f := DefaultFields[k];
    // The position in `nutriments` of a letter `f` lacks: 1 is `u`, 2 is `t`, 4 is `i`, 5 is `m`.
    var j := if k == 2 || k == 4 || k == 7 then 5 else if k == 3 then 1 else if k == 6 then 2 else 4;
    assert "nutriments"[j] !in f;
    ContainsChars(f, "nutriments", j);
  }

  /** The joined default list, as the test reads it: `code` and `product_name` occur in it. */
  lemma DefaultFieldsJoinedHas()
    ensures Contains(Join(DefaultFields, ','), "code") && Contains(Join(DefaultFields, ','), "product_name")
  {
    JoinContainsItem(DefaultFields, ',', 0);
    JoinContainsItem(DefaultFields, ',', 1);
  }

  /** `nutriments` does not occur in the joined default list. */
  lemma DefaultFieldsJoinedLacks()
    ensures !Contains(Join(DefaultFields, ','), "nutriments")
  {
    forall k | 0 <= k < |DefaultFields| ensures !Contains(DefaultFields[k], "nutriments") {
      DefaultFieldsLackNutriments(k);
    }
    JoinContainsOnlyInItems(DefaultFields, ',', "nutriments");
  }

  /** A caller's field list of separator-free names reads back exactly. */
  lemma FieldsReadBack(a: SearchArgs)
    requires a.fields.Some? && |a.fields.value| >= 1
    requires forall k :: 0 <= k < |a.fields.value| ==> ',' !in a.fields.value[k]
    ensures Split(SearchParams(a)["fields"], ',') == a.fields.value
  {
    SearchParamsFields(a);
    SplitJoin(a.fields.value, ',');
  }

  /** The paging values read back from the query. */
  lemma PagingReadsBack(a: SearchArgs)
    ensures "page" in SearchParams(a) && IsIntText(SearchParams(a)["page"]) && ParseInt(SearchParams(a)["page"]) == a.page
    ensures "page_size" in SearchParams(a) && IsIntText(SearchParams(a)["page_size"]) && ParseInt(SearchParams(a)["page_size"]) == a.pageSize
  {
    SearchParamsPaging(a);
    ParseIntString(a.page);
    ParseIntString(a.pageSize);
  }

  /** `q` and `search` both stand for `query`, and the alias table is well formed. */
  lemma ContractAliases()
    ensures Contract.WellFormed()
    ensures Contract.Canonical("q") == "query" && Contract.Canonical("search") == "query"
  {
  }

  /** The first search of src/tools/search-products.test.ts: `query: "nutella"` and nothing else. */
  lemma QueryExample()
    ensures var a := Validate(SearchInput(Some("nutella"), None, None, None, None, None, None, None));
      && a.Some? && a.value.page == 1 && a.value.pageSize == 24
      && var p := SearchParams(a.value);
      && "search_terms" in p && p["search_terms"] == "nutella"
      && "sort_by" !in p && "categories_tags" !in p
      && p["fields"] == Join(DefaultFields, ',')
  {
    var a := SearchArgs(Some("nutella"), None, None, None, None, 1, 24, None);
    SearchParamsFilter(a, 0);
    SearchParamsFilter(a, 1);
    SearchParamsFilter(a, 4);
  }

  /** The default paging goes out as `page=1` and `page_size=24`. */
  lemma DefaultPagingText()
    ensures IntToString(DefaultPage) == "1" && IntToString(DefaultPageSize) == "24"
  {
    assert DigitChar(1) == '1' && DigitChar(2) == '2' && DigitChar(4) == '4';
    assert NatToString(2) == "2";
  }

  /** The custom-fields search of the tests: `["product_name", "nutriments"]` goes out as `product_name,nutriments`. */
  lemma CustomFieldsExample(a: SearchArgs)
    requires a.fields == Some(["product_name", "nutriments"])
    ensures SearchParams(a)["fields"] == "product_name,nutriments"
  {
    SearchParamsFields(a);
  }

  /** The filter search of the tests: page 2 of size 10, sorted by popularity, in a category and a grade. */
  lemma FilterExample(a: SearchArgs)
    requires a.categoriesTags == Some("en:breakfast-cereals") && a.nutritionGradesTags == Some("a")
    requires a.sortBy == Some("popularity") && a.page == 2 && a.pageSize == 10
    ensures var p := SearchParams(a);
      && "categories_tags" in p && p["categories_tags"] == "en:breakfast-cereals"
      && "nutrition_grades_tags" in p && p["nutrition_grades_tags"] == "a"
      && "sort_by" in p && p["sort_by"] == "popularity"
      && "page" in p && p["page"] == "2" && "page_size" in p && p["page_size"] == "10"
  {
    SearchParamsFilter(a, 1);
    SearchParamsFilter(a, 3);
    SearchParamsFilter(a, 4);
    SearchParamsPaging(a);
    assert DigitChar(2) == '2' && DigitChar(1) == '1' && DigitChar(0) == '0';
    assert NatToString(1) == "1";
  }

  /** An empty query sends no `search_terms` at all. */
  lemma EmptyQueryOmitted(a: SearchArgs)
    requires a.query == Some("")
    ensures "search_terms" !in SearchParams(a)
  {
    SearchParamsFilter(a, 0);
  }
}
