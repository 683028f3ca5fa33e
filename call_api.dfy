/**
 * The `call_api` tool (src/tools/call-api.ts): any method on any endpoint,
 * handed to the generic request helper with the caller's parameters and no
 * separate body.
 */
module CallApi {
  import opened Wrappers
  import opened Records
  import Schema
  import OffApi

  const Methods: set<string> := {"GET", "POST", "PUT", "PATCH", "DELETE"}
  const DefaultMethod := "GET"

  const Contract := Schema.Contract({"method", "endpoint", "params"}, map["path" := "endpoint", "url" := "endpoint"])

  /** The arguments as a caller gives them. */
  datatype CallInput = CallInput(httpMethod: Option<string>, endpoint: Option<string>, params: Option<map<string, string>>)

  datatype CallArgs = CallArgs(httpMethod: string, endpoint: string, params: Option<map<string, string>>)

  /** The input contract: one of five methods, `GET` when left out, and an endpoint. */
  function Validate(i: CallInput): (r: Option<CallArgs>)
    ensures r.Some? <==> (i.httpMethod.None? || i.httpMethod.value in Methods) && i.endpoint.Some?
    ensures r.Some? ==>
      && r.value.httpMethod == (if i.httpMethod.Some? then i.httpMethod.value else "GET")
      && r.value.httpMethod in Methods
      && r.value.endpoint == i.endpoint.value && r.value.params == i.params
  {
    var m := i.httpMethod.GetOr(DefaultMethod);
    if m in Methods && i.endpoint.Some? then Some(CallArgs(m, i.endpoint.value, i.params)) else None
  }

  /** The handler: `offRequest(config, method, endpoint, params)`. */
  function Call(c: OffApi.Config, a: CallArgs, response: OffApi.Response): (x: OffApi.Exchange)
    ensures x.sent.Some? && x.sent.value.httpMethod == a.httpMethod
    ensures OffApi.EndpointOf(c, x.sent.value.url) == Some(a.endpoint)
    ensures x.result != OffApi.CredentialsMissing
  {
    OffApi.RequestExchange(c, a.httpMethod, a.endpoint, a.params, None, response)
  }

  /** A GET sends the parameters as the query, with no body, and reads the answer as `offGet` does. */
  lemma CallGetSendsQuery(c: OffApi.Config, a: CallArgs, response: OffApi.Response)
    requires a.httpMethod == "GET"
    ensures var x := Call(c, a, response);
      && x.sent.value.query == Spread(a.params)
      && x.sent.value.body == OffApi.NoBody
      && x.result == OffApi.ReadOutcome(response)
  {
  }

  /**
   * Any other method sends the parameters as a url-encoded form with no
   * query; the configured credentials are added, over any of the same name,
   * only when both are set.
   */
  lemma CallWriteSendsForm(c: OffApi.Config, a: CallArgs, response: OffApi.Response)
    requires a.httpMethod != "GET"
    ensures var x := Call(c, a, response);
      && x.sent.value.query == map[]
      && x.sent.value.body.Form?
      && var f := x.sent.value.body.fields;
      && (forall k :: k in f <==> k in Spread(a.params) || (OffApi.HasCredentials(c) && OffApi.IsCredentialKey(k)))
      && (forall k :: k in Spread(a.params) && !(OffApi.HasCredentials(c) && OffApi.IsCredentialKey(k)) ==> f[k] == Spread(a.params)[k])
      && (OffApi.HasCredentials(c) ==> f["user_id"] == c.userId.value && f["password"] == c.password.value)
      && x.result == OffApi.WriteOutcome(response)
  {
    assert Spread(None) == map[];
  }

  /** With no method given the call is a GET of the endpoint as written. */
  lemma DefaultIsGet(c: OffApi.Config, endpoint: string, response: OffApi.Response)
    ensures var a := Validate(CallInput(None, Some(endpoint), None));
      && a.Some?
      && Call(c, a.value, response) == OffApi.GetExchange(c, endpoint, None, response)
  {
  }

  /**
   * The POST of src/tools/call-api.test.ts, under the test configuration
   * (user `off`, password `off`): the method is `POST` and the form is the
   * params with the two credentials added.
   */
  lemma PostExample(userAgent: string, response: OffApi.Response)
    ensures var c := OffApi.Config(Some("off"), Some("off"), userAgent, "world");
      var params := map["code" := "12345678", "product_name" := "Test"];
      var a := Validate(CallInput(Some("POST"), Some("/cgi/product_jqm2.pl"), Some(params)));
      && a.Some?
      && var x := Call(c, a.value, response);
      && x.sent.value.httpMethod == "POST"
      && x.sent.value.body == OffApi.Form(params["user_id" := "off"]["password" := "off"])
  {
    var params := map["code" := "12345678", "product_name" := "Test"];
    assert Spread(Some(params)) + Spread(None) == params;
  }

  /** `path` and `url` both stand for `endpoint`, and the alias table is well formed. */
  lemma ContractAliases()
    ensures Contract.WellFormed()
    ensures Contract.Canonical("path") == "endpoint" && Contract.Canonical("url") == "endpoint"
  {
  }
}
