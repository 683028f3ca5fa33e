/**
 * The `get_product` tool (src/tools/get-product.ts): a GET of one product
 * by barcode, with the comma-joined list of fields to return.
 */
module GetProduct {
  import opened Wrappers
  import opened Text
  import Schema
  import OffApi

  /** The product fields asked for when the caller names none. */
  const DefaultFields: seq<string> :=
    ["product_name", "brands", "categories", "nutriscore_grade", "nova_group", "ingredients_text",
     "nutriments", "image_url", "quantity", "code"]

  const Contract := Schema.Contract({"barcode", "fields"}, map["code" := "barcode", "ean" := "barcode"])

  const EndpointPrefix := "/api/v2/product/"
  const EndpointSuffix := ".json"

  /** The arguments as a caller gives them. */
  datatype ProductInput = ProductInput(barcode: Option<string>, fields: Option<seq<string>>)

  datatype ProductArgs = ProductArgs(barcode: string, fields: Option<seq<string>>)

  /** The input contract: a barcode is required, the field list is optional. */
  function Validate(i: ProductInput): (r: Option<ProductArgs>)
    ensures r.Some? <==> i.barcode.Some?
    ensures r.Some? ==> r.value.barcode == i.barcode.value && r.value.fields == i.fields
  {
    if i.barcode.Some? then Some(ProductArgs(i.barcode.value, i.fields)) else None
  }

  /** `/api/v2/product/${barcode}.json`: the barcode is put in the path verbatim. */
  function ProductEndpoint(barcode: string): string {
    EndpointPrefix + barcode + EndpointSuffix
  }

  /** The barcode a product endpoint names, if it has that shape. */
  function BarcodeOf(endpoint: string): Option<string> {
    var n := |EndpointPrefix| + |EndpointSuffix|;
    if |endpoint| >= n && endpoint[..|EndpointPrefix|] == EndpointPrefix
       && endpoint[|endpoint| - |EndpointSuffix|..] == EndpointSuffix
    then Some(endpoint[|EndpointPrefix|..|endpoint| - |EndpointSuffix|])
    else None
  }

  /** The barcode reads back from the endpoint, so two barcodes never share an endpoint. */
  lemma EndpointReadsBack(barcode: string)
    ensures BarcodeOf(ProductEndpoint(barcode)) == Some(barcode)
  {
    var e := ProductEndpoint(barcode);
    assert e[..|EndpointPrefix|] == EndpointPrefix;
    assert e[|e| - |EndpointSuffix|..] == EndpointSuffix;
    assert e[|EndpointPrefix|..|e| - |EndpointSuffix|] == barcode;
  }

  lemma EndpointInjective(b1: string, b2: string)
    ensures ProductEndpoint(b1) == ProductEndpoint(b2) ==> b1 == b2
  {
    EndpointReadsBack(b1);
    EndpointReadsBack(b2);
  }

  /** The query: only `fields`. */
  function ProductParams(a: ProductArgs): map<string, string> {
    map["fields" := Join(a.fields.GetOr(DefaultFields), ',')]
  }

  /**
   * The handler: a GET of the product's endpoint whose query is exactly the
   * joined field list, read as `offGet` reads it.
   */
  function GetProduct(c: OffApi.Config, a: ProductArgs, response: OffApi.Response): (x: OffApi.Exchange)
    ensures x.sent.Some? && x.sent.value.httpMethod == "GET"
    ensures OffApi.EndpointOf(c, x.sent.value.url) == Some(ProductEndpoint(a.barcode))
    ensures x.sent.value.query.Keys == {"fields"}
    ensures x.sent.value.query["fields"] == Join(a.fields.GetOr(DefaultFields), ',')
    ensures x.result == OffApi.ReadOutcome(response)
  {
    OffApi.GetExchange(c, ProductEndpoint(a.barcode), Some(ProductParams(a)), response)
  }

  /** The endpoint the handler addresses names the caller's barcode. */
  lemma GetProductAddressesBarcode(c: OffApi.Config, a: ProductArgs, response: OffApi.Response)
    ensures var e := OffApi.EndpointOf(c, GetProduct(c, a, response).sent.value.url);
      e.Some? && BarcodeOf(e.value) == Some(a.barcode)
  {
    EndpointReadsBack(a.barcode);
  }

  /** An error status from the server makes the tool fail with the API error message. */
  lemma GetProductFailsOnError(c: OffApi.Config, a: ProductArgs, response: OffApi.Response)
    requires !response.ok
    ensures var o := GetProduct(c, a, response).result;
      && o.ApiError?
      && OffApi.Message(o) == OffApi.ErrorMessage(response.status, response.statusText, response.text)
  {
  }

  /** No default field name contains the separator. */
  lemma DefaultFieldsUnseparated()
    ensures forall k :: 0 <= k < |DefaultFields| ==> ',' !in DefaultFields[k]
  {
  }

  /** The default list reads back as itself. */
  lemma DefaultFieldsReadBack()
    ensures Split(Join(DefaultFields, ','), ',') == DefaultFields
  {
    DefaultFieldsUnseparated();
    SplitJoin(DefaultFields, ',');
  }

  /** Unlike the search default, the product default asks for `nutriments`. */
  lemma DefaultFieldsContent()
    ensures "nutriments" in DefaultFields && "code" in DefaultFields && "product_name" in DefaultFields
  {
  }

  /** A caller's list of separator-free names reads back exactly from the query. */
  lemma FieldsReadBack(c: OffApi.Config, a: ProductArgs, response: OffApi.Response)
    requires a.fields.Some? && |a.fields.value| >= 1
    requires forall k :: 0 <= k < |a.fields.value| ==> ',' !in a.fields.value[k]
    ensures Split(GetProduct(c, a, response).sent.value.query["fields"], ',') == a.fields.value
  {
    SplitJoin(a.fields.value, ',');
  }

  /** An explicit empty list is not replaced by the default: `fields` goes out empty. */
  lemma EmptyFieldsSentEmpty(c: OffApi.Config, a: ProductArgs, response: OffApi.Response)
    requires a.fields == Some([])
    ensures GetProduct(c, a, response).sent.value.query["fields"] == ""
  {
  }

  /** The custom-fields fetch of src/tools/get-product.test.ts. */
  lemma CustomFieldsExample(c: OffApi.Config, response: OffApi.Response)
    ensures GetProduct(c, ProductArgs("12345678", Some(["product_name", "brands"])), response).sent.value.query["fields"]
      == "product_name,brands"
  {
  }

  /** `code` and `ean` both stand for `barcode`, and the alias table is well formed. */
  lemma ContractAliases()
    ensures Contract.WellFormed()
    ensures Contract.Canonical("code") == "barcode" && Contract.Canonical("ean") == "barcode"
  {
  }
}
