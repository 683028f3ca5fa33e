/**
 * The `autocomplete` tool (src/tools/autocomplete.ts): a GET of taxonomy
 * suggestions for a prefix, in one taxonomy, language and result limit.
 */
module Autocomplete {
  import opened Wrappers
  import opened Text
  import Schema
  import OffApi

  const Endpoint := "/api/v3/taxonomy_suggestions"

  /** The taxonomies a suggestion can be asked from. */
  const TagTypes: set<string> :=
    {"brands", "categories", "labels", "countries", "stores", "packaging", "ingredients", "traces",
     "allergens", "additives", "states"}

  const DefaultLimit := 10
  const MinLimit := 1
  const MaxLimit := 100

  const Contract := Schema.Contract({"tagtype", "query", "lc", "limit"},
                                    map["type" := "tagtype", "term" := "query", "q" := "query"])

  /** The arguments as a caller gives them. */
  datatype SuggestInput = SuggestInput(tagtype: Option<string>, query: Option<string>, lc: Option<string>, limit: Option<int>)

  /** The arguments the handler sees, with the defaults filled in. */
  datatype SuggestArgs = SuggestArgs(tagtype: string, query: string, lc: string, limit: int)

  predicate Valid(a: SuggestArgs) {
    a.tagtype in TagTypes && MinLimit <= a.limit <= MaxLimit
  }

  /**
   * The input contract: a known taxonomy and a prefix are required; the
   * language defaults to `en` and the limit, an integer in [1, 100], to 10.
   */
  function Validate(i: SuggestInput): (r: Option<SuggestArgs>)
    ensures r.Some? <==>
      && i.tagtype.Some? && i.tagtype.value in TagTypes
      && i.query.Some?
      && (i.limit.None? || 1 <= i.limit.value <= 100)
    ensures r.Some? ==> Valid(r.value)
    ensures r.Some? ==>
      && r.value.tagtype == i.tagtype.value && r.value.query == i.query.value
      && r.value.lc == (if i.lc.Some? then i.lc.value else Schema.DefaultLanguage)
      && r.value.limit == (if i.limit.Some? then i.limit.value else 10)
  {
    if i.tagtype.None? || i.query.None? then None
    else
      var a := SuggestArgs(i.tagtype.value, i.query.value, i.lc.GetOr(Schema.DefaultLanguage), i.limit.GetOr(DefaultLimit));
      if Valid(a) then Some(a) else None
  }

  /** The query: the prefix goes out under the name `string`, the limit as decimal text. */
  function SuggestParams(a: SuggestArgs): map<string, string> {
    map["tagtype" := a.tagtype, "string" := a.query, "lc" := a.lc, "limit" := IntToString(a.limit)]
  }

  /** The handler: a GET of the suggestions endpoint with exactly the four parameters. */
  function Suggest(c: OffApi.Config, a: SuggestArgs, response: OffApi.Response): (x: OffApi.Exchange)
    ensures x.sent.Some? && x.sent.value.httpMethod == "GET"
    ensures OffApi.EndpointOf(c, x.sent.value.url) == Some(Endpoint)
    ensures x.sent.value.query.Keys == {"tagtype", "string", "lc", "limit"}
    ensures x.result == OffApi.ReadOutcome(response)
  {
    OffApi.GetExchange(c, Endpoint, Some(SuggestParams(a)), response)
  }

  /** Each argument reads back from the query sent, the limit as the same integer. */
  lemma SuggestReadsBack(c: OffApi.Config, a: SuggestArgs, response: OffApi.Response)
    ensures var q := Suggest(c, a, response).sent.value.query;
      && q["tagtype"] == a.tagtype && q["string"] == a.query && q["lc"] == a.lc
      && IsIntText(q["limit"]) && ParseInt(q["limit"]) == a.limit
  {
    ParseIntString(a.limit);
  }

  /** A valid limit goes out as one to three digits, never with a sign. */
  lemma LimitText(a: SuggestArgs)
    requires Valid(a)
    ensures var t := SuggestParams(a)["limit"];
      1 <= |t| <= 3 && AllDigits(t)
  {
    var n := a.limit as nat;
    assert n < 1000;
    NatToStringLength(n);
  }

  /** `NatToString` of a number below 1000 has at most three digits. */
  lemma NatToStringLength(n: nat)
    requires n < 1000
    ensures |NatToString(n)| <= 3
  {
    if n >= 10 {
      NatToStringLength(n / 10);
      if n / 10 >= 10 {
        NatToStringLength(n / 100);
      }
    }
  }

  /** The limit bounds are inclusive: 1 and 100 pass, 0 and 101 do not. */
  lemma LimitBounds(tagtype: string, query: string)
    requires tagtype in TagTypes
    ensures Validate(SuggestInput(Some(tagtype), Some(query), None, Some(1))).Some?
    ensures Validate(SuggestInput(Some(tagtype), Some(query), None, Some(100))).Some?
    ensures Validate(SuggestInput(Some(tagtype), Some(query), None, Some(0))).None?
    ensures Validate(SuggestInput(Some(tagtype), Some(query), None, Some(101))).None?
  {
  }

  /** Left out, the language is `en` and the limit goes out as `10`. */
  lemma DefaultsSent(c: OffApi.Config, tagtype: string, query: string, response: OffApi.Response)
    requires tagtype in TagTypes
    ensures var a := Validate(SuggestInput(Some(tagtype), Some(query), None, None));
      && a.Some?
      && var q := Suggest(c, a.value, response).sent.value.query;
      && q["lc"] == "en" && q["limit"] == "10"
  {
    assert NatToString(1) == "1" && NatToString(10) == "10";
  }

  /** `type` stands for `tagtype`, `term` and `q` for `query`, and the alias table is well formed. */
  lemma ContractAliases()
    ensures Contract.WellFormed()
    ensures Contract.Canonical("type") == "tagtype"
    ensures Contract.Canonical("term") == "query" && Contract.Canonical("q") == "query"
  {
  }
}
