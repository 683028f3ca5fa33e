/**
 * The shared HTTP helpers (src/utils/off-api.ts): base URL, the credential
 * gate for writes, the merging of form fields, the routing of the generic
 * call, and how a response becomes a result or an error.
 *
 * The network is a parameter: each helper is given the `Response` the server
 * would send and returns an `Exchange`, the `Request` it sent (none when the
 * credential gate refused) and the `Outcome` the caller sees. Each helper is
 * a function stating what is sent, and a method that builds it step by step
 * as the source does.
 */
module OffApi {
  import opened Wrappers
  import opened Text
  import opened Records

  /** The server's configuration (src/tools/types.ts). */
  datatype Config = Config(userId: Option<string>, password: Option<string>, userAgent: string, country: string)

  /** `config.userId && config.password`: both are set and neither is empty. */
  predicate HasCredentials(c: Config) {
    Truthy(c.userId) && Truthy(c.password)
  }

  /** One entry of a multipart form: a text value, or a file with its bytes and name. */
  datatype Part = Field(value: string) | File(data: seq<bv8>, filename: string)

  datatype Body = NoBody | Form(fields: map<string, string>) | Multipart(parts: map<string, Part>)

  /** What `fetch` is handed: method, URL, headers, query parameters and body. */
  datatype Request = Request(httpMethod: string, url: string, headers: map<string, string>, query: map<string, string>, body: Body)

  /** What the server answers. */
  datatype Response = Response(ok: bool, status: nat, statusText: string, text: string)

  /** A result body: the JSON parsed from a text, or the `{status: 1}` put in place of an empty one. */
  datatype Json = Parsed(source: string) | StatusOne

  datatype Outcome = Ok(json: Json) | CredentialsMissing | ApiError(status: nat, statusText: string, text: string)

  datatype Exchange = Exchange(sent: Option<Request>, result: Outcome)

  const ErrorPrefix := "Open Food Facts API error: "
  const CredentialsMessage := "OFF_USER_ID and OFF_PASSWORD are required for write operations"
  const FormContentType := "application/x-www-form-urlencoded"

  function BaseUrl(c: Config): string {
    "https://" + c.country + ".openfoodfacts.org"
  }

  /** The endpoint a URL addresses on the configured host, if it is on that host. */
  function EndpointOf(c: Config, url: string): Option<string> {
    var base := BaseUrl(c);
    if |base| <= |url| && url[..|base|] == base then Some(url[|base|..]) else None
  }

  /**
   * `${getBaseUrl(config)}${endpoint}` as text: the base URL followed by the
   * endpoint as written. Which host a URL parser then reads from that text
   * is not modelled; an endpoint not starting with `/` can change it.
   */
  function Url(c: Config, endpoint: string): (u: string)
    ensures |u| >= 8 && u[..8] == "https://"
    ensures EndpointOf(c, u) == Some(endpoint)
  {
    var u := BaseUrl(c) + endpoint;
    assert u[..|BaseUrl(c)|] == BaseUrl(c);
    u
  }

  /** The request carries the configured client identification. */
  predicate Identified(c: Config, r: Request) {
    HasHeader(r, "User-Agent", c.userAgent)
  }

  predicate HasHeader(r: Request, name: string, value: string) {
    name in r.headers && r.headers[name] == value
  }

  function GetHeaders(c: Config): map<string, string> {
    map["User-Agent" := c.userAgent, "Accept" := "application/json"]
  }

  function FormHeaders(c: Config): map<string, string> {
    map["User-Agent" := c.userAgent, "Content-Type" := FormContentType]
  }

  /** No `Content-Type`: the transport chooses the multipart boundary. */
  function MultipartHeaders(c: Config): map<string, string> {
    map["User-Agent" := c.userAgent]
  }

  // ---------------------------------------------------------------- errors

  /** The message `handleApiError` throws. */
  function ErrorMessage(status: nat, statusText: string, text: string): string {
    ErrorPrefix + NatToString(status) + " " + statusText + " - " + text
  }

  /** The message a failed call throws. */
  function Message(o: Outcome): string
    requires !o.Ok?
  {
    if o.CredentialsMissing? then CredentialsMessage else ErrorMessage(o.status, o.statusText, o.text)
  }

  /** The status code as an error message spells it, read back. */
  function StatusOf(message: string): Option<nat> {
    if |message| < |ErrorPrefix| || message[..|ErrorPrefix|] != ErrorPrefix then None
    else
      var rest := message[|ErrorPrefix|..];
      var digits := rest[..IndexOf(rest, ' ')];
      if AllDigits(digits) then Some(ParseNat(digits)) else None
  }

  /** An error message starts with the fixed prefix, carries the status code and ends with the body. */
  lemma ErrorMessageCarries(status: nat, statusText: string, text: string)
    ensures var m := ErrorMessage(status, statusText, text);
      && m[..|ErrorPrefix|] == ErrorPrefix
      && StatusOf(m) == Some(status)
      && |text| <= |m| && m[|m| - |text|..] == text
  {
    var m := ErrorMessage(status, statusText, text);
    var digits := NatToString(status);
    var tail := statusText + " - " + text;
    assert m == ErrorPrefix + (digits + [' '] + tail);
    var rest := m[|ErrorPrefix|..];
    assert rest == digits + [' '] + tail;
    assert ' ' !in digits by {
      forall k | 0 <= k < |digits| ensures digits[k] != ' ' {
        assert IsDigit(digits[k]);
      }
    }
    IndexOfFirst(digits, ' ', tail);
    assert rest[..|digits|] == digits;
    ParseNatString(status);
  }

  // -------------------------------------------------------------- responses

  /** How `offGet` reads a response: a non-ok status is an error, otherwise the parsed body. */
  function ReadOutcome(r: Response): (o: Outcome)
    ensures o.ApiError? <==> !r.ok
    ensures o.ApiError? ==> Message(o) == ErrorMessage(r.status, r.statusText, r.text)
    ensures r.ok ==> o == Ok(Parsed(r.text))
  {
    if !r.ok then ApiError(r.status, r.statusText, r.text) else Ok(Parsed(r.text))
  }

  /** How the write helpers read a response: as `ReadOutcome`, but an empty body means `{status: 1}`. */
  function WriteOutcome(r: Response): (o: Outcome)
    ensures o.ApiError? <==> !r.ok
    ensures o.ApiError? ==> Message(o) == ErrorMessage(r.status, r.statusText, r.text)
    ensures r.ok ==> o.Ok? && (o.json == StatusOne <==> r.text == "")
    ensures r.ok && r.text != "" ==> o.json == Parsed(r.text)
  {
    if !r.ok then ApiError(r.status, r.statusText, r.text)
    else if r.text == "" then Ok(StatusOne)
    else Ok(Parsed(r.text))
  }

  /** The two readings differ on exactly one kind of response: an ok one with an empty body. */
  lemma WriteDiffersFromRead(r: Response)
    ensures WriteOutcome(r) != ReadOutcome(r) <==> r.ok && r.text == ""
  {
  }

  // -------------------------------------------------------------------- GET

  /** The request `offGet` sends: a GET whose query holds exactly the given parameters. */
  function GetRequest(c: Config, endpoint: string, params: Option<map<string, string>>): (r: Request)
    ensures r.httpMethod == "GET" && EndpointOf(c, r.url) == Some(endpoint) && Identified(c, r)
    ensures HasHeader(r, "Accept", "application/json") && "Content-Type" !in r.headers
    ensures r.body == NoBody
    ensures forall k :: k in r.query <==> params.Some? && k in params.value
    ensures forall k :: k in r.query ==> r.query[k] == params.value[k]
  {
    Request("GET", Url(c, endpoint), GetHeaders(c), Spread(params), NoBody)
  }

  /**
   * `offGet`: the GET is always sent, whatever the credentials; a non-ok
   * answer is the API error, any other is the parsed body.
   */
  function GetExchange(c: Config, endpoint: string, params: Option<map<string, string>>, response: Response): (x: Exchange)
    ensures x.sent.Some? && x.sent.value.httpMethod == "GET"
    ensures EndpointOf(c, x.sent.value.url) == Some(endpoint) && Identified(c, x.sent.value)
    ensures HasHeader(x.sent.value, "Accept", "application/json") && "Content-Type" !in x.sent.value.headers
    ensures x.sent.value.query == Spread(params) && x.sent.value.body == NoBody
    ensures x.result != CredentialsMissing
    ensures x.result.ApiError? <==> !response.ok
    ensures x.result.ApiError? ==> Message(x.result) == ErrorMessage(response.status, response.statusText, response.text)
    ensures response.ok ==> x.result == Ok(Parsed(response.text))
  {
    Exchange(Some(GetRequest(c, endpoint, params)), ReadOutcome(response))
  }

  /** `offGet`: the query is filled by setting each parameter in turn. */
  method OffGet(c: Config, endpoint: string, params: Option<map<string, string>>, response: Response) returns (x: Exchange)
    ensures x == GetExchange(c, endpoint, params, response)
  {
    var query: map<string, string> := map[];
    if params.Some? {
      query := AssignEntries(query, params.value);
      assert query == params.value;
    }
    var request := Request("GET", Url(c, endpoint), GetHeaders(c), query, NoBody);
    if !response.ok {
      return Exchange(Some(request), ApiError(response.status, response.statusText, response.text));
    }
    x := Exchange(Some(request), Ok(Parsed(response.text)));
  }

  // ------------------------------------------------------- form POST (write)

  predicate IsCredentialKey(k: string) {
    k == "user_id" || k == "password"
  }

  /** `{...fields, user_id: config.userId, password: config.password}`. */
  function WithCredentials(fields: map<string, string>, c: Config): (m: map<string, string>)
    requires HasCredentials(c)
    ensures m.Keys == fields.Keys + {"user_id", "password"}
    ensures m["user_id"] == c.userId.value && m["password"] == c.password.value
    ensures forall k :: k in fields && !IsCredentialKey(k) ==> m[k] == fields[k]
  {
    fields["user_id" := c.userId.value]["password" := c.password.value]
  }

  /**
   * `offPost`: without both credentials nothing is sent and the call fails;
   * otherwise the caller's fields, with the configured credentials written
   * over any of the same name, are posted as a url-encoded form.
   */
  function PostExchange(c: Config, endpoint: string, body: map<string, string>, response: Response): (x: Exchange)
    ensures x.sent.None? <==> !HasCredentials(c)
    ensures x.sent.None? ==> x.result == CredentialsMissing
    ensures x.sent.Some? ==>
      && x.sent.value.httpMethod == "POST"
      && EndpointOf(c, x.sent.value.url) == Some(endpoint)
      && Identified(c, x.sent.value)
      && HasHeader(x.sent.value, "Content-Type", FormContentType)
      && x.sent.value.query == map[]
      && x.sent.value.body == Form(WithCredentials(body, c))
      && x.result == WriteOutcome(response)
  {
    if !HasCredentials(c) then Exchange(None, CredentialsMissing)
    else Exchange(Some(Request("POST", Url(c, endpoint), FormHeaders(c), map[], Form(WithCredentials(body, c)))), WriteOutcome(response))
  }

  method OffPost(c: Config, endpoint: string, body: map<string, string>, response: Response) returns (x: Exchange)
    ensures x == PostExchange(c, endpoint, body, response)
  {
    if !c.userId.Some? || c.userId.value == "" || !c.password.Some? || c.password.value == "" {
      return Exchange(None, CredentialsMissing);
    }
    var formBody := body["user_id" := c.userId.value]["password" := c.password.value];
    var request := Request("POST", Url(c, endpoint), FormHeaders(c), map[], Form(formBody));
    if !response.ok {
      return Exchange(Some(request), ApiError(response.status, response.statusText, response.text));
    }
    var text := response.text;
    x := Exchange(Some(request), Ok(if text != "" then Parsed(text) else StatusOne));
  }

  // -------------------------------------------------- multipart POST (write)

  /** A `FormData` object: named parts that `set` replaces or adds. */
  class FormData {
    var entries: map<string, Part>

    constructor ()
      ensures entries == map[]
    {
      entries := map[];
    }

    method Set(name: string, part: Part)
      modifies this
      ensures entries == old(entries)[name := part]
    {
      entries := entries[name := part];
    }
  }

  /** The form's parts once `offPostMultipart` has set the credentials on it. */
  function PartsWithCredentials(parts: map<string, Part>, c: Config): (m: map<string, Part>)
    requires HasCredentials(c)
    ensures m.Keys == parts.Keys + {"user_id", "password"}
    ensures m["user_id"] == Field(c.userId.value) && m["password"] == Field(c.password.value)
    ensures forall k :: k in parts && !IsCredentialKey(k) ==> m[k] == parts[k]
  {
    parts["user_id" := Field(c.userId.value)]["password" := Field(c.password.value)]
  }

  /** `offPostMultipart`: the same gate as `offPost`, then a multipart POST with no `Content-Type` of its own. */
  function MultipartExchange(c: Config, endpoint: string, parts: map<string, Part>, response: Response): (x: Exchange)
    ensures x.sent.None? <==> !HasCredentials(c)
    ensures x.sent.None? ==> x.result == CredentialsMissing
    ensures x.sent.Some? ==>
      && x.sent.value.httpMethod == "POST"
      && EndpointOf(c, x.sent.value.url) == Some(endpoint)
      && Identified(c, x.sent.value)
      && "Content-Type" !in x.sent.value.headers
      && x.sent.value.query == map[]
      && x.sent.value.body == Multipart(PartsWithCredentials(parts, c))
      && x.result == WriteOutcome(response)
  {
    if !HasCredentials(c) then Exchange(None, CredentialsMissing)
    else Exchange(Some(Request("POST", Url(c, endpoint), MultipartHeaders(c), map[], Multipart(PartsWithCredentials(parts, c)))), WriteOutcome(response))
  }

  /** `offPostMultipart` sets the credentials on the caller's own form before sending it. */
  method OffPostMultipart(c: Config, endpoint: string, form: FormData, response: Response) returns (x: Exchange)
    modifies form
    ensures x == MultipartExchange(c, endpoint, old(form.entries), response)
    ensures form.entries == if HasCredentials(c) then PartsWithCredentials(old(form.entries), c) else old(form.entries)
  {
    if !HasCredentials(c) {
      return Exchange(None, CredentialsMissing);
    }
    form.Set("user_id", Field(c.userId.value));
    form.Set("password", Field(c.password.value));
    var request := Request("POST", Url(c, endpoint), MultipartHeaders(c), map[], Multipart(form.entries));
    if !response.ok {
      return Exchange(Some(request), ApiError(response.status, response.statusText, response.text));
    }
    var text := response.text;
    x := Exchange(Some(request), Ok(if text != "" then Parsed(text) else StatusOne));
  }

  // -------------------------------------------------------- generic request

  /**
   * The form the generic call sends for a method other than GET:
   * `{...params, ...body}`, with the credentials written over it only when
   * both are configured.
   */
  function DispatchForm(c: Config, params: Option<map<string, string>>, body: Option<map<string, string>>): (m: map<string, string>)
    ensures forall k :: k in m <==> k in Spread(params) || k in Spread(body) || (HasCredentials(c) && IsCredentialKey(k))
    ensures HasCredentials(c) ==> "user_id" in m && m["user_id"] == c.userId.value && "password" in m && m["password"] == c.password.value
    ensures forall k :: k in Spread(body) && !(HasCredentials(c) && IsCredentialKey(k)) ==> m[k] == Spread(body)[k]
    ensures forall k :: k in Spread(params) && k !in Spread(body) && !(HasCredentials(c) && IsCredentialKey(k)) ==> m[k] == Spread(params)[k]
  {
    var merged := Spread(params) + Spread(body);
    if HasCredentials(c) then WithCredentials(merged, c) else merged
  }

  /**
   * `offRequest`: a GET is exactly `offGet` (the body is not used); any other
   * method sends `DispatchForm` as a url-encoded form and never fails for
   * want of credentials.
   */
  function RequestExchange(c: Config, httpMethod: string, endpoint: string, params: Option<map<string, string>>,
                           body: Option<map<string, string>>, response: Response): (x: Exchange)
    ensures httpMethod == "GET" ==> x == GetExchange(c, endpoint, params, response)
    ensures x.sent.Some? && x.result != CredentialsMissing
    ensures httpMethod != "GET" ==>
      && x.sent.value.httpMethod == httpMethod
      && EndpointOf(c, x.sent.value.url) == Some(endpoint)
      && Identified(c, x.sent.value)
      && HasHeader(x.sent.value, "Content-Type", FormContentType)
      && x.sent.value.query == map[]
      && x.sent.value.body == Form(DispatchForm(c, params, body))
      && x.result == WriteOutcome(response)
  {
    if httpMethod == "GET" then GetExchange(c, endpoint, params, response)
    else Exchange(Some(Request(httpMethod, Url(c, endpoint), FormHeaders(c), map[], Form(DispatchForm(c, params, body)))), WriteOutcome(response))
  }

  method OffRequest(c: Config, httpMethod: string, endpoint: string, params: Option<map<string, string>>,
                    body: Option<map<string, string>>, response: Response) returns (x: Exchange)
    ensures x == RequestExchange(c, httpMethod, endpoint, params, body, response)
  {
    if httpMethod == "GET" {
      x := OffGet(c, endpoint, params, response);
      return;
    }
    var mergedBody := Spread(params) + Spread(body);
    if HasCredentials(c) {
      mergedBody := mergedBody["user_id" := c.userId.value];
      mergedBody := mergedBody["password" := c.password.value];
    }
    var request := Request(httpMethod, Url(c, endpoint), FormHeaders(c), map[], Form(mergedBody));
    if !response.ok {
      return Exchange(Some(request), ApiError(response.status, response.statusText, response.text));
    }
    var text := response.text;
    x := Exchange(Some(request), Ok(if text != "" then Parsed(text) else StatusOne));
  }

  /** With credentials configured, a generic POST of one body sends what `offPost` of that body sends. */
  lemma DispatchPostMatchesPost(c: Config, endpoint: string, body: map<string, string>, response: Response)
    requires HasCredentials(c)
    ensures RequestExchange(c, "POST", endpoint, None, Some(body), response) == PostExchange(c, endpoint, body, response)
  {
    assert Spread(None) + Spread(Some(body)) == body;
  }

  /** Without them the two part ways: `offPost` refuses, the generic call sends the form bare. */
  lemma DispatchPostWithoutCredentials(c: Config, endpoint: string, body: map<string, string>, response: Response)
    requires !HasCredentials(c)
    ensures PostExchange(c, endpoint, body, response).result == CredentialsMissing
    ensures RequestExchange(c, "POST", endpoint, None, Some(body), response).sent.value.body == Form(body)
  {
    assert Spread(None) + Spread(Some(body)) == body;
  }

  /** The 404 answer of src/tools/get-product.test.ts: the message a caller sees names the status and the body. */
  lemma NotFoundMessage()
    ensures var m := Message(ReadOutcome(Response(false, 404, "Not Found", "Product not found")));
      && m[..|ErrorPrefix|] == ErrorPrefix
      && StatusOf(m) == Some(404)
      && m[|m| - |"Product not found"|..] == "Product not found"
  {
    ErrorMessageCarries(404, "Not Found", "Product not found");
  }
}
