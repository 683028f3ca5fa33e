/**
 * The `select_image` tool (src/tools/select-image.ts): an uploaded image is
 * assigned to a slot, optionally rotated and cropped, by a form POST.
 */
module SelectImage {
  import opened Wrappers
  import opened Text
  import opened Records
  import opened Images
  import Schema
  import OffApi

  const Endpoint := "/cgi/product_image_crop.pl"

  /** The rotations accepted, as the strings the caller passes. */
  const Angles: set<string> := {"0", "90", "180", "270"}

  const Contract := Schema.Contract(
    {"barcode", "imgid", "imagefield", "lc", "angle", "x1", "y1", "x2", "y2"},
    map["code" := "barcode", "id" := "imagefield"])

  /** Every form field the handler can send. */
  const BodyKeys: set<string> := {"code", "imgid", "id", "angle", "x1", "y1", "x2", "y2"}

  /** The arguments as a caller gives them. */
  datatype SelectInput = SelectInput(
    barcode: Option<string>, imgid: Option<int>, imagefield: Option<string>, lc: Option<string>,
    angle: Option<string>, x1: Option<int>, y1: Option<int>, x2: Option<int>, y2: Option<int>)

  datatype SelectArgs = SelectArgs(
    barcode: string, imgid: int, imagefield: string, lc: string,
    angle: Option<string>, x1: Option<int>, y1: Option<int>, x2: Option<int>, y2: Option<int>)

  predicate Valid(a: SelectArgs) {
    a.imagefield in ImageFields && (a.angle.None? || a.angle.value in Angles)
  }

  /**
   * The input contract: barcode, image id and a known image kind are
   * required; the language defaults to `en`; a rotation must be one of the
   * four right angles.
   */
  function Validate(i: SelectInput): (r: Option<SelectArgs>)
    ensures r.Some? <==>
      && i.barcode.Some? && i.imgid.Some? && i.imagefield.Some? && i.imagefield.value in ImageFields
      && (i.angle.None? || i.angle.value in Angles)
    ensures r.Some? ==> Valid(r.value)
    ensures r.Some? ==>
      && r.value.barcode == i.barcode.value && r.value.imgid == i.imgid.value
      && r.value.imagefield == i.imagefield.value
      && r.value.lc == (if i.lc.Some? then i.lc.value else Schema.DefaultLanguage)
      && r.value.angle == i.angle
      && r.value.x1 == i.x1 && r.value.y1 == i.y1 && r.value.x2 == i.x2 && r.value.y2 == i.y2
  {
    if i.barcode.None? || i.imgid.None? || i.imagefield.None? then None
    else
      var a := SelectArgs(i.barcode.value, i.imgid.value, i.imagefield.value, i.lc.GetOr(Schema.DefaultLanguage),
                          i.angle, i.x1, i.y1, i.x2, i.y2);
      if Valid(a) then Some(a) else None
  }

  /** `String(n)` of a number that may be `undefined`. */
  function NumberText(n: Option<int>): Option<string> {
    if n.Some? then Some(IntToString(n.value)) else None
  }

  /** The fields every selection sends. */
  function BaseBody(a: SelectArgs): map<string, string> {
    map["code" := a.barcode, "imgid" := IntToString(a.imgid), "id" := Slot(a.imagefield, a.lc)]
  }

  /** The rotation, sent when it is a non-empty string. */
  function Rotation(a: SelectArgs): seq<(string, Option<string>)> {
    [("angle", a.angle)]
  }

  /** The crop corners, each sent whenever it is given, zero included. */
  function Corners(a: SelectArgs): seq<(string, Option<string>)> {
    [("x1", NumberText(a.x1)), ("y1", NumberText(a.y1)), ("x2", NumberText(a.x2)), ("y2", NumberText(a.y2))]
  }

  /** The form the handler posts, before the credentials are added. */
  function CropBody(a: SelectArgs): map<string, string> {
    PutEach(PutEach(BaseBody(a), IfTruthy, Rotation(a)), IfDefined, Corners(a))
  }

  /** The handler: fills `body` field by field, then calls `offPost`. */
  method Select(c: OffApi.Config, a: SelectArgs, response: OffApi.Response) returns (x: OffApi.Exchange)
    ensures x == OffApi.PostExchange(c, Endpoint, CropBody(a), response)
  {
    var body := map["code" := a.barcode, "imgid" := IntToString(a.imgid), "id" := a.imagefield + "_" + a.lc];
    // Each step is checked as `Some(body) == Some(...)`: the wrapper makes the
    // prover match the two records as terms rather than key by key.
    assert Some(body) == Some(BaseBody(a));
    if Truthy(a.angle) {
      body := body["angle" := a.angle.value];
    }
    assert Some(body) == Some(PutFirst(BaseBody(a), IfTruthy, Rotation(a), 1));
    ghost var rotated := PutEach(BaseBody(a), IfTruthy, Rotation(a));
    ghost var cs := Corners(a);
    if a.x1.Some? {
      body := body["x1" := IntToString(a.x1.value)];
    }
    assert Some(body) == Some(PutFirst(rotated, IfDefined, cs, 1));
    if a.y1.Some? {
      body := body["y1" := IntToString(a.y1.value)];
    }
    assert Some(body) == Some(PutFirst(rotated, IfDefined, cs, 2));
    if a.x2.Some? {
      body := body["x2" := IntToString(a.x2.value)];
    }
    assert Some(body) == Some(PutFirst(rotated, IfDefined, cs, 3));
    if a.y2.Some? {
      body := body["y2" := IntToString(a.y2.value)];
    }
    assert Some(body) == Some(PutFirst(rotated, IfDefined, cs, 4));
    x := OffApi.OffPost(c, Endpoint, body, response);
  }

  /** Only the eight known fields are ever sent, and the three base fields always are. */
  lemma CropBodyKeys(a: SelectArgs)
    ensures BaseBody(a).Keys <= CropBody(a).Keys <= BodyKeys
  {
    var rotated := PutEach(BaseBody(a), IfTruthy, Rotation(a));
    PutEachKeys(BaseBody(a), IfTruthy, Rotation(a));
    PutEachKeys(rotated, IfDefined, Corners(a));
    var es := Corners(a);
    assert Names(es) <= BodyKeys by {
      forall k | k in Names(es) ensures k in BodyKeys {
        var i :| 0 <= i < |es| && es[i].0 == k;
      }
    }
    assert Names(Rotation(a)) == {"angle"} by {
      assert Rotation(a)[0].0 == "angle";
    }
  }

  /** The base fields: the barcode, the image id as decimal text, and the slot. */
  lemma CropBodyBase(a: SelectArgs)
    ensures var b := CropBody(a);
      && "code" in b && b["code"] == a.barcode
      && "imgid" in b && IsIntText(b["imgid"]) && ParseInt(b["imgid"]) == a.imgid
      && "id" in b && b["id"] == Slot(a.imagefield, a.lc)
  {
    var rotated := PutEach(BaseBody(a), IfTruthy, Rotation(a));
    PutEachOther(BaseBody(a), IfTruthy, Rotation(a), "code");
    PutEachOther(BaseBody(a), IfTruthy, Rotation(a), "imgid");
    PutEachOther(BaseBody(a), IfTruthy, Rotation(a), "id");
    PutEachOther(rotated, IfDefined, Corners(a), "code");
    PutEachOther(rotated, IfDefined, Corners(a), "imgid");
    PutEachOther(rotated, IfDefined, Corners(a), "id");
    ParseIntString(a.imgid);
  }

  /** The slot sent reads back as the image kind and the language. */
  lemma CropSlotReadsBack(a: SelectArgs)
    requires Valid(a)
    ensures "id" in CropBody(a)
    ensures SlotField(CropBody(a)["id"]) == a.imagefield && SlotLanguage(CropBody(a)["id"]) == a.lc
  {
    CropBodyBase(a);
    ImageFieldsUnderscoreFree();
    SlotReadsBack(a.imagefield, a.lc);
  }

  /** A valid rotation is sent exactly when it is given: every accepted angle, `"0"` too, is a non-empty string. */
  lemma CropBodyAngle(a: SelectArgs)
    requires Valid(a)
    ensures var b := CropBody(a);
      && ("angle" in b <==> a.angle.Some?)
      && ("angle" in b ==> b["angle"] == a.angle.value)
  {
    var rotated := PutEach(BaseBody(a), IfTruthy, Rotation(a));
    PutEachAt(BaseBody(a), IfTruthy, Rotation(a), 0);
    PutEachOther(rotated, IfDefined, Corners(a), "angle");
  }

  /** Each crop corner is sent exactly when it is given, zero included, as decimal text that reads back. */
  lemma CropBodyCorner(a: SelectArgs, i: nat)
    requires i < |Corners(a)|
    ensures var (name, value) := Corners(a)[i]; var b := CropBody(a);
      && (name in b <==> value.Some?)
      && (name in b ==> b[name] == value.value && IsIntText(b[name]))
  {
    var rotated := PutEach(BaseBody(a), IfTruthy, Rotation(a));
    var name := Corners(a)[i].0;
    PutEachOther(BaseBody(a), IfTruthy, Rotation(a), name);
    PutEachAt(rotated, IfDefined, Corners(a), i);
    var n := match i case 0 => a.x1 case 1 => a.y1 case 2 => a.x2 case _ => a.y2;
    assert Corners(a)[i].1 == NumberText(n);
    if n.Some? {
      ParseIntString(n.value);
    }
  }

  /** A corner at coordinate 0 is still sent, as `"0"`. */
  lemma ZeroCornerSent(a: SelectArgs)
    requires a.x1 == Some(0)
    ensures "x1" in CropBody(a) && CropBody(a)["x1"] == "0"
  {
    CropBodyCorner(a, 0);
  }

  /** `code` stands for `barcode`, `id` for `imagefield`, and the alias table is well formed. */
  lemma ContractAliases()
    ensures Contract.WellFormed()
    ensures Contract.Canonical("code") == "barcode" && Contract.Canonical("id") == "imagefield"
  {
  }
}
