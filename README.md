# Open Food Facts MCP server: request construction

This project models the request layer of the Open Food Facts MCP server. The server exposes the Open Food Facts REST API as agent tools. The model covers:

- the shared HTTP helpers of `src/utils/off-api.ts`. These compose the base URL, gate write calls on credentials, merge form fields with the configured `user_id` and `password`, route the generic call, and turn a response into a result or an error;
- seven tool handlers: `search_products`, `get_product`, `add_or_edit_product`, `select_image`, `upload_image`, `autocomplete` and `call_api`. Each one has its input contract (enums, integer bounds, defaults, alias table) and its construction of the query or form it sends.

The network is a parameter. Each helper takes the `Response` the server would give (`ok`, `status`, `statusText`, `text`). It returns an `Exchange`: the `Request` it sent (method, URL, headers, query, form or multipart body) and the `Outcome` the caller sees (`Ok(json)`, `CredentialsMissing` or `ApiError(status, statusText, text)`). `sent` is `None` exactly when the credential gate refused. Parsed JSON is opaque: `Parsed(text)`, or `StatusOne` for the `{status: 1}` that replaces an empty write answer.

Each HTTP helper is modelled twice:

- a function (`GetExchange`, `PostExchange`, `MultipartExchange`, `RequestExchange`) that states what is sent;
- a method (`OffGet`, `OffPost`, `OffPostMultipart`, `OffRequest`) that builds the request step by step, as the source does, and is proved equal to that function.

The handlers whose source assigns keys one at a time are methods proved equal to a body function: `Search`, `AddOrEdit`, `Select` and `Upload`. `Upload` fills a `FormData` object whose `set` is modelled as a class method. Lemmas then state what the body function contains.

JavaScript truthiness of an optional string (`undefined` and `""` are falsy) is `Records.Truthy`. `Records.PutEach` models a run of guarded assignments `if (v) record[k] = v` (or `if (v !== undefined)`).

Modules:

| file | module |
|---|---|
| `wrappers.dfy` | `Option` |
| `text.dfy` | `join(',')`, `String(n)`, and the functions that read them back |
| `records.dfy` | records as maps: truthiness, guarded assignments, the `Object.entries` copy loop |
| `schema.dfy` | input contracts: declared fields and alias tables |
| `off_api.dfy` | `src/utils/off-api.ts` |
| `search_products.dfy`, `get_product.dfy`, `add_or_edit_product.dfy`, `select_image.dfy`, `upload_image.dfy`, `autocomplete.dfy`, `call_api.dfy` | one tool each |
| `images.dfy` | image kinds and the `${imagefield}_${lc}` slot shared by the two image tools |

## Model

| member | source | states |
|---|---|---|
| Text.Join | src/tools/search-products.ts:84 | the definition of `xs.join(sep)` that the `Split`, `SplitJoin`, `JoinSplit` and `JoinContains…` rows are about; it has no contract of its own |
| Text.IndexOf | src/tools/search-products.ts:84 | the result is the first position of the character, or the length when it is absent |
| Text.Split | src/tools/search-products.ts:84 | a comma-joined list read back yields at least one piece, and no piece holds the separator |
| Text.SplitJoin | src/tools/search-products.ts:83-84 | a list of one or more separator-free names survives `join(',')` followed by splitting |
| Text.JoinSplit | src/tools/search-products.ts:84 | every string is the join of its own split |
| Text.JoinContainsItem | src/tools/search-products.ts:84 | every item of a list is a substring of its join |
| Text.JoinContainsOnlyInItems | src/tools/search-products.ts:84 | a non-empty text without the separator is a substring of a join only if it is a substring of one item |
| Text.ContainsChars | src/tools/search-products.test.ts:69 | every character of a substring occurs in the string |
| Text.ContainsAround | src/tools/search-products.ts:84 | a text without `c` that occurs in `a + c + b` occurs in `a` or in `b` |
| Text.IntToString | src/tools/select-image.ts:51 | the definition of `String(i)` for an integer, also used for paging (src/tools/search-products.ts:56-57) and the limit; `ParseIntString` is the lemma about it |
| Text.NatToString | src/tools/search-products.ts:56-57 | `String(n)` of a non-negative integer is a non-empty digit string with no leading zero unless it is `0` |
| Text.ParseNatString | src/tools/search-products.ts:56-57 | the decimal text of a natural number reads back as that number |
| Text.ParseIntString | src/tools/select-image.ts:49-53 | `String(i)` of an integer is a well-formed decimal text that reads back as `i` |
| Records.PutEachKeys | src/tools/search-products.ts:63-81 | guarded assignments keep every existing key and add only the names assigned to |
| Records.PutFirstKeys | src/tools/search-products.ts:63-81 | the same for the first `n` assignments of a run |
| Records.PutEachOther | src/tools/search-products.ts:55-81 | a key no assignment names keeps its presence and value |
| Records.PutFirstOther | src/tools/search-products.ts:55-81 | the same for the first `n` assignments |
| Records.PutEachAt | src/tools/add-or-edit-product.ts:43-77 | a key assigned once is present exactly when the guard admits its value or it was present before, and then the admitted value wins |
| Records.PutFirstAt | src/tools/add-or-edit-product.ts:43-77 | the same for the first `n` assignments |
| Records.AssignEntries | src/tools/add-or-edit-product.ts:79-83 | the `Object.entries` loop leaves the target overridden by every source entry: `target + source` |
| Schema.Contract.Canonical | src/tools/search-products.ts:37-40 | an alias resolves to its target, a declared field to itself, and in a well-formed table every known key resolves to a declared field |
| OffApi.BaseUrl | src/utils/off-api.ts:3-5 | the definition of `getBaseUrl`, `https://` + country + `.openfoodfacts.org`; `Url` and `EndpointOf` state what follows from it |
| OffApi.HasCredentials | src/utils/off-api.ts:43 | the definition of the write gate `config.userId && config.password` under JavaScript truthiness, also used at src/utils/off-api.ts:75 and :111; the `PostExchange`, `MultipartExchange` and `DispatchForm` rows are about it |
| OffApi.ErrorMessage | src/utils/off-api.ts:9 | the definition of the `handleApiError` text; `ErrorMessageCarries` is the lemma about it |
| OffApi.Url | src/utils/off-api.ts:3-5 | every URL text starts with `https://`, and the endpoint reads back verbatim after the country's base URL |
| OffApi.ErrorMessageCarries | src/utils/off-api.ts:7-10 | the error message starts with `Open Food Facts API error: `, carries the status code readably, and ends with the response body |
| OffApi.ReadOutcome | src/utils/off-api.ts:31-35 | a read fails exactly on a non-ok response, with the `handleApiError` message; otherwise it yields the parsed body |
| OffApi.WriteOutcome | src/utils/off-api.ts:62-67 | a write fails exactly on a non-ok response; an ok answer is `{status: 1}` exactly when its text is empty, and the parsed text otherwise |
| OffApi.WriteDiffersFromRead | src/utils/off-api.ts:35 | read and write readings differ exactly on an ok response with an empty body |
| OffApi.GetRequest | src/utils/off-api.ts:17-29 | a GET to the endpoint with `User-Agent` and `Accept: application/json`, no `Content-Type`, no body, and a query holding exactly the given parameters (so none when they are absent) |
| OffApi.GetExchange | src/utils/off-api.ts:12-36 | `offGet` always sends a GET to the endpoint with `User-Agent` and `Accept: application/json`, no `Content-Type` and no body, whose query is exactly the params (empty when absent); it never fails for credentials, it fails with the `handleApiError` message exactly on a non-ok answer, and otherwise it yields the parsed body |
| OffApi.OffGet | src/utils/off-api.ts:12-36 | setting the parameters one by one and fetching gives `GetExchange` |
| OffApi.WithCredentials | src/utils/off-api.ts:47-51 | the form has the caller's keys plus `user_id` and `password`, the credentials carry the configured values, and every other key keeps its value |
| OffApi.PostExchange | src/utils/off-api.ts:38-68 | nothing is sent and the call fails with the credentials error unless both credentials are non-empty; otherwise a url-encoded POST of the form with the credentials, read with `WriteOutcome` |
| OffApi.OffPost | src/utils/off-api.ts:38-68 | the step-by-step helper gives `PostExchange` |
| OffApi.FormData.constructor | src/tools/upload-image.ts:41 | a new form has no parts |
| OffApi.FormData.Set | src/utils/off-api.ts:79-80 | `set` adds the named part or replaces it |
| OffApi.PartsWithCredentials | src/utils/off-api.ts:79-80 | the form's parts plus `user_id` and `password` as text parts; the other parts are unchanged |
| OffApi.MultipartExchange | src/utils/off-api.ts:70-96 | the same gate as `offPost`; then a POST with `User-Agent` and no `Content-Type`, whose body is the parts with the credentials |
| OffApi.OffPostMultipart | src/utils/off-api.ts:70-96 | the helper gives `MultipartExchange` and leaves the caller's own form with the credentials set on it |
| OffApi.DispatchForm | src/utils/off-api.ts:109-114 | `{...params, ...body}`: body values win over params, and the configured credentials win over both, but only when both are set |
| OffApi.RequestExchange | src/utils/off-api.ts:98-133 | a GET is exactly `offGet` with the same params, and the body is not used; any other method sends `DispatchForm` as a url-encoded form with that method; it never fails for missing credentials |
| OffApi.OffRequest | src/utils/off-api.ts:98-133 | the step-by-step helper gives `RequestExchange` |
| OffApi.DispatchPostMatchesPost | src/utils/off-api.ts:38-68 | with credentials, a generic POST of a body sends what `offPost` of that body sends |
| OffApi.DispatchPostWithoutCredentials | src/utils/off-api.ts:43-45 | without credentials `offPost` refuses, while the generic POST sends the body bare |
| OffApi.NotFoundMessage | src/tools/get-product.test.ts:72-84 | the 404 answer gives a message that has the prefix, the status `404` and the body `Product not found` |
| SearchProducts.Validate | src/tools/search-products.ts:19-41 | accepted exactly for a known sort order, a page of at least 1 and a page size in [1, 100]; the page defaults to 1 and the page size to 24; everything else passes through |
| SearchProducts.Search | src/tools/search-products.ts:55-86 | the handler's step-by-step `params` is `SearchParams`, sent by `offGet` to `/cgi/search.pl` |
| SearchProducts.SearchParams | src/tools/search-products.ts:55-84 | the definition of the query the handler sends; `Search` is proved to build it, and the `SearchParams…` rows state what it holds |
| SearchProducts.SearchParamsKeys | src/tools/search-products.ts:55-84 | the fixed parameters and `fields` are always sent, and nothing outside the eleven known names ever is |
| SearchProducts.SearchParamsPaging | src/tools/search-products.ts:56-57 | `page` and `page_size` are always sent as `String` of the integers |
| SearchProducts.SearchParamsFlags | src/tools/search-products.ts:58-60 | `json=1`, `search_simple=1` and `action=process` are always sent |
| SearchProducts.SearchParamsFilter | src/tools/search-products.ts:63-81 | each of the five filters is sent under its name, with its value, exactly when it is a non-empty string |
| SearchProducts.SearchParamsFields | src/tools/search-products.ts:83-84 | `fields` is the comma-join of the given list, or of `DEFAULT_FIELDS` when none is given |
| SearchProducts.DefaultFieldsUnseparated | src/tools/search-products.ts:8-17 | no default field name holds a comma |
| SearchProducts.DefaultFieldsReadBack | src/tools/search-products.ts:8-17 | the joined default list splits back into itself |
| SearchProducts.DefaultFieldsContent | src/tools/search-products.ts:8-17 | the default list has `code` and `product_name` but not `nutriments` |
| SearchProducts.DefaultFieldsLackNutriments | src/tools/search-products.ts:8-17 | no default name has `nutriments` as a substring |
| SearchProducts.DefaultFieldsJoinedHas | src/tools/search-products.test.ts:64-68 | `code` and `product_name` are substrings of the joined default `fields` |
| SearchProducts.DefaultFieldsJoinedLacks | src/tools/search-products.test.ts:64-69 | `nutriments` is not a substring of the joined default `fields` |
| SearchProducts.FieldsReadBack | src/tools/search-products.ts:83-84 | a non-empty list of comma-free names reads back exactly from the `fields` sent |
| SearchProducts.PagingReadsBack | src/tools/search-products.ts:56-57 | `page` and `page_size` read back as the integers given |
| SearchProducts.ContractAliases | src/tools/search-products.test.ts:38-51 | `q` and `search` stand for `query`, and the alias table is well formed |
| SearchProducts.QueryExample | src/tools/search-products.test.ts:14-36 | a search for `nutella` alone gets page 1 of 24, sends `search_terms=nutella` and the default fields, and sends no sort or category |
| SearchProducts.DefaultPagingText | src/tools/search-products.ts:33-34 | the defaults 1 and 24, sent as `String` of them at src/tools/search-products.ts:56-57, go out as `page=1` and `page_size=24` |
| SearchProducts.CustomFieldsExample | src/tools/search-products.test.ts:72-86 | `["product_name", "nutriments"]` goes out as `product_name,nutriments` |
| SearchProducts.FilterExample | src/tools/search-products.test.ts:88-109 | the filter search sends its category, grade, sort order and paging as given |
| SearchProducts.EmptyQueryOmitted | src/tools/search-products.ts:63-65 | an empty query sends no `search_terms` |
| GetProduct.Validate | src/tools/get-product.ts:21-30 | accepted exactly when a barcode is given; the field list is optional |
| GetProduct.ProductEndpoint | src/tools/get-product.ts:49 | the definition of `/api/v2/product/${barcode}.json`; `EndpointReadsBack` and `EndpointInjective` are about it |
| GetProduct.ProductParams | src/tools/get-product.ts:44-47 | the definition of the query `{fields: fields.join(',')}`; the `GetProduct` row states what it sends |
| GetProduct.EndpointReadsBack | src/tools/get-product.ts:49 | the barcode reads back verbatim from `/api/v2/product/${barcode}.json` |
| GetProduct.EndpointInjective | src/tools/get-product.ts:49 | two barcodes never share an endpoint |
| GetProduct.GetProduct | src/tools/get-product.ts:44-49 | a GET of the product endpoint whose only query parameter is `fields`, the comma-join of the given list or of the defaults, read with `ReadOutcome` |
| GetProduct.GetProductAddressesBarcode | src/tools/get-product.test.ts:14-39 | the endpoint the handler addresses names the caller's barcode |
| GetProduct.GetProductFailsOnError | src/tools/get-product.test.ts:72-84 | a non-ok response makes the tool fail with the API error message |
| GetProduct.DefaultFieldsUnseparated | src/tools/get-product.ts:8-19 | no default field name holds a comma |
| GetProduct.DefaultFieldsReadBack | src/tools/get-product.ts:8-19 | the joined default list splits back into itself |
| GetProduct.DefaultFieldsContent | src/tools/get-product.ts:8-19 | the default list has `nutriments`, `code` and `product_name` |
| GetProduct.FieldsReadBack | src/tools/get-product.ts:44-47 | a non-empty list of comma-free names reads back exactly from the `fields` sent |
| GetProduct.EmptyFieldsSentEmpty | src/tools/get-product.ts:44 | an explicit empty list is kept by `??`, so `fields` goes out empty |
| GetProduct.CustomFieldsExample | src/tools/get-product.test.ts:56-69 | `["product_name", "brands"]` goes out as `product_name,brands` |
| GetProduct.ContractAliases | src/tools/get-product.ts:26-29 | `code` and `ean` stand for `barcode`, and the alias table is well formed |
| AddOrEditProduct.Validate | src/tools/add-or-edit-product.ts:8-25 | accepted exactly when a barcode is given; every other field passes through |
| AddOrEditProduct.NamedBody | src/tools/add-or-edit-product.ts:39-77 | the definition of the body after the nine guarded assignments; the `EditBody…` lemmas are about it |
| AddOrEditProduct.EditBody | src/tools/add-or-edit-product.ts:39-83 | the definition of the posted body with the extra fields copied last; `AddOrEdit` is proved to build it, and the `EditBody…` rows state what it holds |
| AddOrEditProduct.AddOrEdit | src/tools/add-or-edit-product.ts:39-85 | the step-by-step body, with the nine guarded fields and then the extra fields copied over, is `EditBody`, posted by `offPost` to `/cgi/product_jqm2.pl` |
| AddOrEditProduct.EditBodyCode | src/tools/add-or-edit-product.ts:39-41 | `code` is always sent: the barcode, unless an extra field named `code` replaces it |
| AddOrEditProduct.EditBodyNamed | src/tools/add-or-edit-product.ts:43-83 | each named field is sent exactly when it is a non-empty string or an extra field has its name, and the extra field's value wins |
| AddOrEditProduct.EditBodyExtras | src/tools/add-or-edit-product.ts:79-83 | every extra field is sent with its own value |
| AddOrEditProduct.EditBodyKeys | src/tools/add-or-edit-product.ts:39-83 | nothing is sent but `code`, the named fields and the extra fields |
| AddOrEditProduct.CredentialsWin | src/utils/off-api.ts:47-51 | the configured credentials go out even over extra fields named `user_id` or `password` |
| AddOrEditProduct.EmptyNameOmitted | src/tools/add-or-edit-product.ts:43-45 | an empty product name is not sent unless an extra field supplies one |
| AddOrEditProduct.ContractAliases | src/tools/add-or-edit-product.ts:22-24 | `code` stands for `barcode`, and the alias table is well formed |
| Images.Slot | src/tools/upload-image.ts:43 | the definition of `${imagefield}_${lc}`, also at src/tools/select-image.ts:52; `SlotReadsBack` and `SlotInjective` are about it |
| Images.ImageFieldsUnderscoreFree | src/tools/upload-image.ts:12-18 | no image kind holds `_` |
| Images.SlotReadsBack | src/tools/upload-image.ts:43 | the kind and the language read back from `${imagefield}_${lc}` when the kind has no `_` |
| Images.SlotInjective | src/tools/select-image.ts:52 | slots of known image kinds are equal only for equal kinds and languages |
| SelectImage.Validate | src/tools/select-image.ts:8-35 | accepted exactly with a barcode, an image id, one of the five image kinds and, if given, one of the four angles; `lc` defaults to `en` |
| SelectImage.CropBody | src/tools/select-image.ts:49-73 | the definition of the posted body; `Select` is proved to build it, and the `CropBody…` rows state what it holds |
| SelectImage.Select | src/tools/select-image.ts:49-75 | the step-by-step body, with the base fields and then the guarded angle and corners, is `CropBody`, posted by `offPost` to `/cgi/product_image_crop.pl` |
| SelectImage.CropBodyKeys | src/tools/select-image.ts:49-73 | the three base fields are always sent, and nothing outside the eight known names ever is |
| SelectImage.CropBodyBase | src/tools/select-image.ts:49-53 | `code` is the barcode, `imgid` is decimal text that reads back as the image id, and `id` is the slot |
| SelectImage.CropSlotReadsBack | src/tools/select-image.ts:52 | the `id` sent reads back as the image kind and the language |
| SelectImage.CropBodyAngle | src/tools/select-image.ts:55-57 | a valid angle, `"0"` included, is sent exactly when it is given |
| SelectImage.CropBodyCorner | src/tools/select-image.ts:59-73 | each corner is sent exactly when it is defined, zero included, as decimal text |
| SelectImage.ZeroCornerSent | src/tools/select-image.ts:59-61 | `x1: 0` goes out as `x1=0` |
| SelectImage.ContractAliases | src/tools/select-image.ts:31-34 | `code` stands for `barcode` and `id` for `imagefield`, and the alias table is well formed |
| UploadImage.Validate | src/tools/upload-image.ts:8-25 | accepted exactly with a barcode, one of the five image kinds and the image data; `lc` defaults to `en` |
| UploadImage.FilePart | src/tools/upload-image.ts:44 | the definition of the file part name `imgupload_${imagefield}_${lc}`; `FilePartDistinct` and `FilePartReadsBack` are about it |
| UploadImage.UploadParts | src/tools/upload-image.ts:41-44 | the definition of the form the handler fills; `Upload` is proved to fill it, and `UploadPartsContent` and `UploadSent` state what it holds |
| UploadImage.Upload | src/tools/upload-image.ts:38-46 | the form filled by three `set` calls holds `UploadParts` and is posted by `offPostMultipart` to `/cgi/product_image_upload.pl` |
| UploadImage.FilePartDistinct | src/tools/upload-image.ts:42-44 | the file part's name never clashes with `code`, `imagefield` or a credential |
| UploadImage.UploadPartsContent | src/tools/upload-image.ts:41-44 | the form has exactly three parts: the barcode, the slot as text, and the decoded bytes as `image.jpg` under `imgupload_` plus the slot |
| UploadImage.UploadSent | src/utils/off-api.ts:79-80 | with credentials, the form posted has exactly five parts, the two credentials among them |
| UploadImage.FilePartReadsBack | src/tools/upload-image.ts:44 | the file part's name starts with `imgupload_`, and its remainder reads back as the image kind and the language |
| UploadImage.ContractAliases | src/tools/upload-image.ts:21-24 | `code` stands for `barcode` and `type` for `imagefield`, and the alias table is well formed |
| Autocomplete.Validate | src/tools/autocomplete.ts:8-32 | accepted exactly with one of the eleven taxonomies, a query and, if given, a limit in [1, 100]; `lc` defaults to `en` and the limit to 10 |
| Autocomplete.SuggestParams | src/tools/autocomplete.ts:46-51 | the definition of the four-key query; `Suggest`, `SuggestReadsBack` and `LimitText` are about it |
| Autocomplete.Suggest | src/tools/autocomplete.ts:46-53 | a GET of `/api/v3/taxonomy_suggestions` whose query has exactly `tagtype`, `string`, `lc` and `limit`, read with `ReadOutcome` |
| Autocomplete.SuggestReadsBack | src/tools/autocomplete.ts:46-51 | the query carries the taxonomy, the prefix under `string`, the language, and the limit as decimal text that reads back |
| Autocomplete.LimitText | src/tools/autocomplete.ts:25 | a valid limit goes out as one to three digits with no sign |
| Autocomplete.NatToStringLength | src/tools/autocomplete.ts:50 | a number below 1000 is at most three digits long |
| Autocomplete.LimitBounds | src/tools/autocomplete.ts:25 | the limit bounds are inclusive: 1 and 100 are accepted, 0 and 101 are rejected |
| Autocomplete.DefaultsSent | src/tools/autocomplete.ts:24-25 | left out, the language goes out as `en` and the limit as `10` |
| Autocomplete.ContractAliases | src/tools/autocomplete.ts:27-31 | `type` stands for `tagtype`, `term` and `q` for `query`, and the alias table is well formed |
| CallApi.Validate | src/tools/call-api.ts:8-24 | accepted exactly with an endpoint and, if given, one of the five methods; the method defaults to `GET` |
| CallApi.Call | src/tools/call-api.ts:38 | a request is always sent, with the caller's method, to the endpoint verbatim, and it never fails for missing credentials |
| CallApi.CallGetSendsQuery | src/tools/call-api.ts:38 | a GET sends the params as the query, with no body, and reads the answer as `offGet` does |
| CallApi.CallWriteSendsForm | src/utils/off-api.ts:105-114 | any other method sends the params as the form, with no query; only when both credentials are set are `user_id` and `password` added, with the configured values over any params of those names |
| CallApi.DefaultIsGet | src/tools/call-api.test.ts:14-29 | with no method given, the call is a GET of the endpoint as written |
| CallApi.PostExample | src/tools/call-api.test.ts:31-45 | under the test configuration (user and password `off`, src/tools/_test-utils.ts:7-12), the POST of the tests goes out with method `POST`, and its form is the params plus `user_id=off` and `password=off` |
| CallApi.ContractAliases | src/tools/call-api.test.ts:47-60 | `path` and `url` stand for `endpoint`, and the alias table is well formed |

## Left out

- `fetch` and all network I/O: the server's `Response` is a parameter of each helper, and the request is returned instead of sent.
- `response.json()` and `JSON.parse`: the parsed JSON is opaque (`Parsed(text)`). A body that is not JSON, and the exception that parsing would throw, are not modelled.
- URL parsing and serialisation (`new URL`, `URLSearchParams`, percent-encoding): a URL is the base URL followed by the endpoint text. The query and the form are kept as maps. An endpoint or a barcode holding `?`, `#` or `/` is therefore not reinterpreted the way a URL parser would reinterpret it.
- OffApi.Url: states the URL text, not the host a URL parser reads from it. An endpoint that does not start with `/` can move the request to another host: `@other.example/x` is read as host `other.example`, and `.other.example/` as `world.openfoodfacts.org.other.example`. For a non-GET `call_api` the source would then post `user_id` and `password` to that host. The model does not capture this.
- The order of query parameters and form fields: records are unordered maps.
- src/utils/schema.ts is not part of this model. Each tool's alias table and declared fields are modelled, and `Canonical` resolves one key. Which of two clashing keys wins, and how unknown keys are rejected, are not modelled.
- Zod's own behaviour beyond the bounds, enums and defaults each contract states (error messages, coercion, `describe` texts).
- src/utils/response.ts (`jsonResult`) is not part of this model: a handler's result is the `Outcome`, not the MCP tool result built from it.
- Base64 decoding in `upload_image` (`Buffer.from(data, 'base64')`): the decoder is the parameter `decode`.
- The multipart encoding of a `FormData` (boundary, `Blob` type): a form is a map of parts.
- `String(x)` of non-integer numbers: image ids, page numbers, limits and crop coordinates are integers in the model. `Text.IntToString` is exact for integers only; JavaScript's exponent notation for very large values is not modelled.
- The exception text of the credential gate is the constant `CredentialsMessage`. Exceptions are modelled as `Outcome` values rather than thrown.
- `fetch`'s normalisation of method names in `offRequest`: the method is sent as given.
- The special `__proto__` key of JavaScript object literals: a record is a plain map.
- src/main.ts (environment, transports, signals), src/tools/index.ts (tool registration and read-only hints) and src/tools/get-api-docs.ts (a static text) are not part of this model.
