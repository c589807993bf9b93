/**
  The record schema of the feed (`photoSchema` and `photoQuerySchema`).

  `ParsePhoto` mirrors the schema's nesting, one parser per nested object,
  and returns the typed record with unknown keys dropped. `ValidPhoto` is an
  independent, path-by-path statement of the same requirements; the
  contracts below tie the two together and show that nothing is lost by
  parsing (`PhotoJson` is a raw form of a record, and parsing it gives
  the record back).
 */
module PhotoSchema {
  import opened Wrappers
  import opened Json

  /** The `show` flag: optional (absent), nullable, or a boolean. */
  datatype Show = ShowAbsent | ShowNull | ShowFlag(visible: bool)

  datatype Dimensions = Dimensions(width: int, height: int)

  /** `photo.asset`, with `metadata.dimensions` carried as `dimensions`. */
  datatype Asset = Asset(dimensions: Dimensions, url: string)

  /** `photo`; `None` stands for a `null` attribution or caption. */
  datatype Upload = Upload(asset: Asset, attribution: Option<string>, caption: Option<string>)

  /** A record that passed the schema. */
  datatype Photo = Photo(createdAt: string, show: Show, photo: Upload)

  // ---------------------------------------------------------------------
  // Reference definition: each leaf of the schema, reached by its path.

  function PhotoOf(j: Json): Option<Json> { Field(Some(j), "photo") }
  function AssetOf(j: Json): Option<Json> { Field(PhotoOf(j), "asset") }
  function DimensionsOf(j: Json): Option<Json> {
    Field(Field(AssetOf(j), "metadata"), "dimensions")
  }

  predicate IsString(o: Option<Json>) { o.Some? && o.value.JStr? }
  predicate IsNumber(o: Option<Json>) { o.Some? && o.value.JNum? }
  predicate IsNullableString(o: Option<Json>) {
    o.Some? && (o.value.JStr? || o.value.JNull?)
  }
  predicate IsOptionalNullableBool(o: Option<Json>) {
    o.None? || o.value.JNull? || o.value.JBool?
  }

  /** A raw record is valid when every leaf the schema names has its type. */
  predicate ValidPhoto(j: Json) {
    && IsString(Field(Some(j), "_createdAt"))
    && IsOptionalNullableBool(Field(Some(j), "show"))
    && IsNumber(Field(DimensionsOf(j), "width"))
    && IsNumber(Field(DimensionsOf(j), "height"))
    && IsString(Field(AssetOf(j), "url"))
    && IsNullableString(Field(PhotoOf(j), "attribution"))
    && IsNullableString(Field(PhotoOf(j), "caption"))
  }

  /** A raw batch is valid when it is an array of valid records. */
  predicate ValidPhotoArray(j: Json) {
    j.JArr? && forall i :: 0 <= i < |j.items| ==> ValidPhoto(j.items[i])
  }

  // ---------------------------------------------------------------------
  // How typed values appear in raw form.

  function ShowJson(s: Show): Option<Json> {
    match s
    case ShowAbsent => None
    case ShowNull => Some(JNull)
    case ShowFlag(b) => Some(JBool(b))
  }

  function NullableJson(o: Option<string>): Json {
    match o
    case None => JNull
    case Some(s) => JStr(s)
  }

  // ---------------------------------------------------------------------
  // The nested parsers.

  function ParseDimensions(o: Option<Json>): Option<Dimensions> {
    var w := Field(o, "width");
    var h := Field(o, "height");
    if IsNumber(w) && IsNumber(h) then Some(Dimensions(w.value.n, h.value.n)) else None
  }

  function ParseAsset(o: Option<Json>): Option<Asset> {
    var d := ParseDimensions(Field(Field(o, "metadata"), "dimensions"));
    var u := Field(o, "url");
    if d.Some? && IsString(u) then Some(Asset(d.value, u.value.s)) else None
  }

  function ParseNullableString(o: Option<Json>): Option<Option<string>> {
    if IsString(o) then Some(Some(o.value.s))
    else if o == Some(JNull) then Some(None)
    else None
  }

  function ParseShow(o: Option<Json>): Option<Show> {
    match o
    case None => Some(ShowAbsent)
    case Some(JNull) => Some(ShowNull)
    case Some(JBool(b)) => Some(ShowFlag(b))
    case _ => None
  }

  function ParseUpload(o: Option<Json>): Option<Upload> {
    var a := ParseAsset(Field(o, "asset"));
    var at := ParseNullableString(Field(o, "attribution"));
    var c := ParseNullableString(Field(o, "caption"));
    if a.Some? && at.Some? && c.Some? then Some(Upload(a.value, at.value, c.value)) else None
  }

  /** `photoSchema.parse`: succeeds exactly on valid records, and the record
      it returns carries every leaf of the input unchanged. */
  function ParsePhoto(j: Json): (r: Option<Photo>)
    ensures r.Some? <==> ValidPhoto(j)
    ensures r.Some? ==>
      && Field(Some(j), "_createdAt") == Some(JStr(r.value.createdAt))
      && Field(Some(j), "show") == ShowJson(r.value.show)
      && Field(DimensionsOf(j), "width") == Some(JNum(r.value.photo.asset.dimensions.width))
      && Field(DimensionsOf(j), "height") == Some(JNum(r.value.photo.asset.dimensions.height))
      && Field(AssetOf(j), "url") == Some(JStr(r.value.photo.asset.url))
      && Field(PhotoOf(j), "attribution") == Some(NullableJson(r.value.photo.attribution))
      && Field(PhotoOf(j), "caption") == Some(NullableJson(r.value.photo.caption))
  {
    var c := Field(Some(j), "_createdAt");
    var s := ParseShow(Field(Some(j), "show"));
    var p := ParseUpload(PhotoOf(j));
    if IsString(c) && s.Some? && p.Some? then Some(Photo(c.value.s, s.value, p.value)) else None
  }

  /** `photoQuerySchema.parse` over the elements of an array: all records
      parse, in order, or the whole batch is rejected. */
  function ParseAll(items: seq<Json>): (r: Option<seq<Photo>>)
    ensures r.Some? <==> forall i :: 0 <= i < |items| ==> ValidPhoto(items[i])
    ensures r.Some? ==> |r.value| == |items|
    ensures r.Some? ==> forall i :: 0 <= i < |items| ==> ParsePhoto(items[i]) == Some(r.value[i])
  {
    if items == [] then Some([])
    else
      match (ParsePhoto(items[0]), ParseAll(items[1..]))
      case (Some(p), Some(ps)) => Some([p] + ps)
      case _ => None
  }

  /** `photoQuerySchema.parse`: the batch must be an array of valid records;
      one bad element rejects all of it. */
  function ParsePhotoArray(j: Json): (r: Option<seq<Photo>>)
    ensures r.Some? <==> ValidPhotoArray(j)
    ensures r.Some? ==> |r.value| == |j.items|
    ensures r.Some? ==> forall i :: 0 <= i < |j.items| ==> ParsePhoto(j.items[i]) == Some(r.value[i])
  {
    match j
    case JArr(items) => ParseAll(items)
    case _ => None
  }

  // ---------------------------------------------------------------------
  // A raw form of a record. The feed queries project the same nesting but
  // never `show`, so what they return parses with `ShowAbsent`; the other
  // `show` values appear here only to cover every record.

  /** A raw form of the record; it validates and parses back to the record. */
  function PhotoJson(p: Photo): (j: Json)
    ensures ValidPhoto(j)
    ensures ParsePhoto(j) == Some(p)
  {
    var dims := JObj(map["width" := JNum(p.photo.asset.dimensions.width),
                         "height" := JNum(p.photo.asset.dimensions.height)]);
    var asset := JObj(map["url" := JStr(p.photo.asset.url),
                          "metadata" := JObj(map["dimensions" := dims])]);
    var upload := JObj(map["caption" := NullableJson(p.photo.caption),
                           "attribution" := NullableJson(p.photo.attribution),
                           "asset" := asset]);
    var fields := map["photo" := upload, "_createdAt" := JStr(p.createdAt)];
    match p.show
    case ShowAbsent => JObj(fields)
    case ShowNull => JObj(fields["show" := JNull])
    case ShowFlag(b) => JObj(fields["show" := JBool(b)])
  }

  function PhotoArrayJson(ps: seq<Photo>): Json {
    JArr(seq(|ps|, i requires 0 <= i < |ps| => PhotoJson(ps[i])))
  }

  /** A batch in raw form validates and parses back to itself. */
  lemma {:induction false} PhotoArrayRoundTrip(ps: seq<Photo>)
    ensures ValidPhotoArray(PhotoArrayJson(ps))
    ensures ParsePhotoArray(PhotoArrayJson(ps)) == Some(ps)
  {
    var j := PhotoArrayJson(ps);
    forall i | 0 <= i < |j.items| ensures ParsePhoto(j.items[i]) == Some(ps[i]) {
      assert j.items[i] == PhotoJson(ps[i]);
    }
    var r := ParsePhotoArray(j);
    assert r.Some?;
    assert r.value == ps;
  }
}
