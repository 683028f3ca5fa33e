/**
 * The `upload_image` tool (src/tools/upload-image.ts): the base64 image is
 * decoded and posted as a multipart form, filed under its slot.
 *
 * Base64 decoding (`Buffer.from(data, 'base64')`) is a parameter `decode`.
 */
module UploadImage {
  import opened Wrappers
  import opened Images
  import Schema
  import OffApi

  const Endpoint := "/cgi/product_image_upload.pl"
  const FilePrefix := "imgupload_"
  const FileName := "image.jpg"

  const Contract := Schema.Contract({"barcode", "imagefield", "image_data", "lc"},
                                    map["code" := "barcode", "type" := "imagefield"])

  /** The arguments as a caller gives them. */
  datatype UploadInput = UploadInput(barcode: Option<string>, imagefield: Option<string>,
                                     imageData: Option<string>, lc: Option<string>)

  datatype UploadArgs = UploadArgs(barcode: string, imagefield: string, imageData: string, lc: string)

  /** The input contract: barcode, a known image kind and the data are required; the language defaults to `en`. */
  function Validate(i: UploadInput): (r: Option<UploadArgs>)
    ensures r.Some? <==> i.barcode.Some? && i.imagefield.Some? && i.imagefield.value in ImageFields && i.imageData.Some?
    ensures r.Some? ==>
      && r.value.barcode == i.barcode.value && r.value.imagefield == i.imagefield.value
      && r.value.imageData == i.imageData.value
      && r.value.lc == (if i.lc.Some? then i.lc.value else Schema.DefaultLanguage)
  {
    if i.barcode.Some? && i.imagefield.Some? && i.imagefield.value in ImageFields && i.imageData.Some?
    then Some(UploadArgs(i.barcode.value, i.imagefield.value, i.imageData.value, i.lc.GetOr(Schema.DefaultLanguage)))
    else None
  }

  /** The name of the file part: `imgupload_${imagefield}_${lc}`. */
  function FilePart(a: UploadArgs): string {
    FilePrefix + Slot(a.imagefield, a.lc)
  }

  /** The form the handler fills before the credentials are added. */
  function UploadParts(a: UploadArgs, decode: string -> seq<bv8>): map<string, OffApi.Part> {
    map["code" := OffApi.Field(a.barcode), "imagefield" := OffApi.Field(Slot(a.imagefield, a.lc)),
        FilePart(a) := OffApi.File(decode(a.imageData), FileName)]
  }

  /** The handler: a fresh form, three parts set in turn, then `offPostMultipart`. */
  method Upload(c: OffApi.Config, a: UploadArgs, decode: string -> seq<bv8>, response: OffApi.Response) returns (x: OffApi.Exchange)
    ensures x == OffApi.MultipartExchange(c, Endpoint, UploadParts(a, decode), response)
  {
    var imageBuffer := decode(a.imageData);
    var slot := a.imagefield + "_" + a.lc;
    var form := new OffApi.FormData();
    form.Set("code", OffApi.Field(a.barcode));
    form.Set("imagefield", OffApi.Field(slot));
    form.Set("imgupload_" + slot, OffApi.File(imageBuffer, "image.jpg"));
    assert form.entries == UploadParts(a, decode);
    x := OffApi.OffPostMultipart(c, Endpoint, form, response);
  }

  /** The file part's name never clashes with the text parts or the credentials. */
  lemma FilePartDistinct(a: UploadArgs)
    ensures FilePart(a) != "code" && FilePart(a) != "imagefield"
    ensures !OffApi.IsCredentialKey(FilePart(a))
  {
    var f := FilePart(a);
    assert f[..3] == "img";
  }

  /**
   * The three parts: the barcode, the slot as text, and the decoded bytes as
   * `image.jpg` under the slot's file name; nothing else.
   */
  lemma UploadPartsContent(a: UploadArgs, decode: string -> seq<bv8>)
    ensures var p := UploadParts(a, decode);
      && p.Keys == {"code", "imagefield", FilePart(a)}
      && p["code"] == OffApi.Field(a.barcode)
      && p["imagefield"] == OffApi.Field(Slot(a.imagefield, a.lc))
      && p[FilePart(a)] == OffApi.File(decode(a.imageData), FileName)
  {
    FilePartDistinct(a);
  }

  /** With credentials the posted form has exactly five parts, the two credentials among them. */
  lemma UploadSent(c: OffApi.Config, a: UploadArgs, decode: string -> seq<bv8>, response: OffApi.Response)
    requires OffApi.HasCredentials(c)
    ensures var x := OffApi.MultipartExchange(c, Endpoint, UploadParts(a, decode), response);
      && x.sent.Some? && x.sent.value.body.Multipart?
      && var p := x.sent.value.body.parts;
      && p.Keys == {"code", "imagefield", FilePart(a), "user_id", "password"}
      && p[FilePart(a)] == OffApi.File(decode(a.imageData), FileName)
  {
    FilePartDistinct(a);
    UploadPartsContent(a, decode);
  }

  /** The file part's name reads back as the image kind and the language. */
  lemma FilePartReadsBack(a: UploadArgs)
    requires a.imagefield in ImageFields
    ensures |FilePart(a)| >= |FilePrefix| && FilePart(a)[..|FilePrefix|] == FilePrefix
    ensures var s := FilePart(a)[|FilePrefix|..]; SlotField(s) == a.imagefield && SlotLanguage(s) == a.lc
  {
    ImageFieldsUnderscoreFree();
    SlotReadsBack(a.imagefield, a.lc);
    assert FilePart(a)[|FilePrefix|..] == Slot(a.imagefield, a.lc);
  }

  /** `code` stands for `barcode`, `type` for `imagefield`, and the alias table is well formed. */
  lemma ContractAliases()
    ensures Contract.WellFormed()
    ensures Contract.Canonical("code") == "barcode" && Contract.Canonical("type") == "imagefield"
  {
  }
}
