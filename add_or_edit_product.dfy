/**
 * The `add_or_edit_product` tool (src/tools/add-or-edit-product.ts): a form
 * POST of the barcode, the named product fields the caller filled in, and
 * any extra fields, which are written last.
 */
module AddOrEditProduct {
  import opened Wrappers
  import opened Records
  import Schema
  import OffApi

  const Endpoint := "/cgi/product_jqm2.pl"

  const Contract := Schema.Contract(
    {"barcode", "product_name", "brands", "categories", "labels", "quantity", "ingredients_text",
     "packaging", "stores", "countries", "extra_fields"},
    map["code" := "barcode"])

  /** The arguments as a caller gives them. */
  datatype EditInput = EditInput(
    barcode: Option<string>, productName: Option<string>, brands: Option<string>, categories: Option<string>,
    labels: Option<string>, quantity: Option<string>, ingredientsText: Option<string>, packaging: Option<string>,
    stores: Option<string>, countries: Option<string>, extraFields: Option<map<string, string>>)

  datatype EditArgs = EditArgs(
    barcode: string, productName: Option<string>, brands: Option<string>, categories: Option<string>,
    labels: Option<string>, quantity: Option<string>, ingredientsText: Option<string>, packaging: Option<string>,
    stores: Option<string>, countries: Option<string>, extraFields: Option<map<string, string>>)

  /** The input contract: only the barcode is required. */
  function Validate(i: EditInput): (r: Option<EditArgs>)
    ensures r.Some? <==> i.barcode.Some?
    ensures r.Some? ==>
      && r.value.barcode == i.barcode.value
      && r.value.productName == i.productName && r.value.brands == i.brands
      && r.value.categories == i.categories && r.value.labels == i.labels
      && r.value.quantity == i.quantity && r.value.ingredientsText == i.ingredientsText
      && r.value.packaging == i.packaging && r.value.stores == i.stores
      && r.value.countries == i.countries && r.value.extraFields == i.extraFields
  {
    if i.barcode.None? then None
    else Some(EditArgs(i.barcode.value, i.productName, i.brands, i.categories, i.labels, i.quantity,
                       i.ingredientsText, i.packaging, i.stores, i.countries, i.extraFields))
  }

  /** The named fields, each sent under its own name when it is a non-empty string. */
  function NamedFields(a: EditArgs): seq<(string, Option<string>)> {
    [("product_name", a.productName), ("brands", a.brands), ("categories", a.categories),
     ("labels", a.labels), ("quantity", a.quantity), ("ingredients_text", a.ingredientsText),
     ("packaging", a.packaging), ("stores", a.stores), ("countries", a.countries)]
  }

  /** The barcode and the named fields, before the extra fields are written. */
  function NamedBody(a: EditArgs): map<string, string> {
    PutEach(map["code" := a.barcode], IfTruthy, NamedFields(a))
  }

  /** The form the handler posts, before the credentials are added. */
  function EditBody(a: EditArgs): map<string, string> {
    if a.extraFields.Some? then NamedBody(a) + a.extraFields.value else NamedBody(a)
  }

  /** The handler: fills `body` field by field, copies the extra fields over it, then calls `offPost`. */
  method AddOrEdit(c: OffApi.Config, a: EditArgs, response: OffApi.Response) returns (x: OffApi.Exchange)
    ensures x == OffApi.PostExchange(c, Endpoint, EditBody(a), response)
  {
    var body := map["code" := a.barcode];
    ghost var es := NamedFields(a);
    // Each step is checked as `Some(body) == Some(...)`: the wrapper makes the
    // prover match the two records as terms rather than key by key.
    if Truthy(a.productName) {
      body := body["product_name" := a.productName.value];
    }
    assert Some(body) == Some(PutFirst(map["code" := a.barcode], IfTruthy, es, 1));
    if Truthy(a.brands) {
      body := body["brands" := a.brands.value];
    }
    assert Some(body) == Some(PutFirst(map["code" := a.barcode], IfTruthy, es, 2));
    if Truthy(a.categories) {
      body := body["categories" := a.categories.value];
    }
    assert Some(body) == Some(PutFirst(map["code" := a.barcode], IfTruthy, es, 3));
    if Truthy(a.labels) {
      body := body["labels" := a.labels.value];
    }
    assert Some(body) == Some(PutFirst(map["code" := a.barcode], IfTruthy, es, 4));
    if Truthy(a.quantity) {
      body := body["quantity" := a.quantity.value];
    }
    assert Some(body) == Some(PutFirst(map["code" := a.barcode], IfTruthy, es, 5));
    if Truthy(a.ingredientsText) {
      body := body["ingredients_text" := a.ingredientsText.value];
    }
    assert Some(body) == Some(PutFirst(map["code" := a.barcode], IfTruthy, es, 6));
    if Truthy(a.packaging) {
      body := body["packaging" := a.packaging.value];
    }
    assert Some(body) == Some(PutFirst(map["code" := a.barcode], IfTruthy, es, 7));
    if Truthy(a.stores) {
      body := body["stores" := a.stores.value];
    }
    assert Some(body) == Some(PutFirst(map["code" := a.barcode], IfTruthy, es, 8));
    if Truthy(a.countries) {
      body := body["countries" := a.countries.value];
    }
    assert Some(body) == Some(PutFirst(map["code" := a.barcode], IfTruthy, es, 9));
    assert Some(body) == Some(NamedBody(a));
    if a.extraFields.Some? {
      body := AssignEntries(body, a.extraFields.value);
    }
    assert Some(body) == Some(EditBody(a));
    x := OffApi.OffPost(c, Endpoint, body, response);
  }

  /** The barcode is always sent as `code`, unless an extra field of that name replaces it. */
  lemma EditBodyCode(a: EditArgs)
    ensures var b := EditBody(a);
      && "code" in b
      && b["code"] == if "code" in Spread(a.extraFields) then Spread(a.extraFields)["code"] else a.barcode
  {
    PutEachOther(map["code" := a.barcode], IfTruthy, NamedFields(a), "code");
  }

  /**
   * Each named field is sent when it is a non-empty string or an extra field
   * has its name; the extra field's value wins.
   */
  lemma EditBodyNamed(a: EditArgs, i: nat)
    requires i < |NamedFields(a)|
    ensures var (name, value) := NamedFields(a)[i]; var b := EditBody(a); var extra := Spread(a.extraFields);
      && (name in b <==> Truthy(value) || name in extra)
      && (name in b ==> b[name] == if name in extra then extra[name] else value.value)
  {
    var name := NamedFields(a)[i].0;
    assert name != "code";
    PutEachAt(map["code" := a.barcode], IfTruthy, NamedFields(a), i);
  }

  /** Every extra field is sent with its own value. */
  lemma EditBodyExtras(a: EditArgs)
    ensures forall k :: k in Spread(a.extraFields) ==> k in EditBody(a) && EditBody(a)[k] == Spread(a.extraFields)[k]
  {
  }

  /** Nothing is sent but the barcode, the named fields and the extra fields. */
  lemma EditBodyKeys(a: EditArgs)
    ensures EditBody(a).Keys <= {"code"} + Names(NamedFields(a)) + Spread(a.extraFields).Keys
  {
    PutEachKeys(map["code" := a.barcode], IfTruthy, NamedFields(a));
  }

  /** The configured credentials go out as set, even over extra fields named `user_id` or `password`. */
  lemma CredentialsWin(c: OffApi.Config, a: EditArgs, response: OffApi.Response)
    requires OffApi.HasCredentials(c)
    ensures var x := OffApi.PostExchange(c, Endpoint, EditBody(a), response);
      && x.sent.Some? && x.sent.value.body.Form?
      && var f := x.sent.value.body.fields;
      && f["user_id"] == c.userId.value && f["password"] == c.password.value
  {
  }

  /** An empty product name is not sent, unless an extra field supplies one. */
  lemma EmptyNameOmitted(a: EditArgs)
    requires a.productName == Some("") && "product_name" !in Spread(a.extraFields)
    ensures "product_name" !in EditBody(a)
  {
    EditBodyNamed(a, 0);
  }

  /** `code` stands for `barcode`, and the alias table is well formed. */
  lemma ContractAliases()
    ensures Contract.WellFormed()
    ensures Contract.Canonical("code") == "barcode"
  {
  }
}
