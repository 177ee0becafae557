/**
 * The second-draft N5 driver records: the N5 data-type allow-list, the compression
 * shorthand and the six discriminated compression variants with their bounds and
 * defaults, and the per-dimension length checks on the metadata.
 */
module InternalN5 {
  import opened Wrappers
  import opened Json
  import Types

  datatype N5Error =
    | InvalidDataType(dataType: Types.DataType)
    | CompressionNotAnObject
    | MissingDiscriminator
    | UnknownCompressionType(tag: Json)
    | FieldTypeError(field: string)
    | FieldOutOfRange(field: string)
    | ArrayLengthMismatch(field: string, length: nat, dimensions: nat)

  /** `VALID_N5_DTYPES`: the fixed-width integer and float types. */
  const ValidN5DataTypes: set<Types.DataType> := {
    Types.Float32, Types.Float64,
    Types.Int8, Types.Int16, Types.Int32, Types.Int64,
    Types.UInt8, Types.UInt16, Types.UInt32, Types.UInt64}

  /** `_validate_N5_dtype`: the data type is returned unchanged when allowed and rejected otherwise. */
  function ValidateN5DataType(d: Types.DataType): (r: Result<Types.DataType, N5Error>)
    ensures r.Ok? <==> d in ValidN5DataTypes
    ensures r.Ok? ==> r.value == d
    ensures r.Err? ==> r.error == InvalidDataType(d)
  {
    if d !in ValidN5DataTypes then Err(InvalidDataType(d)) else Ok(d)
  }

  /** `_str_to_compression`: a bare string `s` stands for `{"type": s}`; other values pass through. */
  function StrToCompression(v: Json): (r: Json)
    ensures v.Str? ==> r == Obj(map["type" := v])
    ensures !v.Str? ==> r == v
  {
    if v.Str? then Obj(map["type" := v]) else v
  }

  /** The six compression variants, discriminated by their `type` tag. */
  datatype Compression =
    | Blosc(cname: string, clevel: int, shuffle: int)
    | Bzip2(blockSize: int)
    | Gzip(level: int, useZlib: bool)
    | Raw
    | Xz(preset: int)
    | Zstd(zstdLevel: int)

  const BloscCompressors: set<string> := {"blosclz", "lz4", "lz4hc", "snappy", "zlib", "zstd"}

  /** The field bounds of each variant. */
  predicate ValidCompression(c: Compression)
  {
    match c
    case Blosc(cname, clevel, shuffle) => cname in BloscCompressors && 0 <= clevel <= 9 && shuffle in {0, 1, 2}
    case Bzip2(blockSize) => 1 <= blockSize <= 9
    case Gzip(level, _) => -1 <= level <= 9
    case Raw => true
    case Xz(preset) => 0 <= preset <= 9
    case Zstd(level) => level <= 22
  }

  function CompressionTag(c: Compression): string
  {
    match c
    case Blosc(_, _, _) => "blosc"
    case Bzip2(_) => "bzip2"
    case Gzip(_, _) => "gzip"
    case Raw => "raw"
    case Xz(_) => "xz"
    case Zstd(_) => "zstd"
  }

  /** The six `type` tags, as JSON strings. */
  const CompressionTags: set<Json> :=
    {Str("blosc"), Str("bzip2"), Str("gzip"), Str("raw"), Str("xz"), Str("zstd")}

  /** An optional int field is absent, or an int (a bool counts) within [lo, hi]. */
  predicate IntFieldAccepted(d: map<string, Json>, key: string, lo: Option<int>, hi: int)
  {
    key in d ==> IsPyInt(d[key]) && (lo.Some? ==> lo.value <= PyIntValue(d[key])) && PyIntValue(d[key]) <= hi
  }

  /** `x` is what an optional int field holds: the given int, or the default when absent. */
  predicate HoldsInt(d: map<string, Json>, key: string, default: int, x: int)
  {
    if key in d then IsPyInt(d[key]) && x == PyIntValue(d[key]) else x == default
  }

  /** The `type` tag selects a variant, each of whose fields is absent or of its declared type and bounds. */
  predicate VariantAccepted(d: map<string, Json>, tag: string)
  {
    (tag == "blosc" ==>
       ("cname" in d ==> d["cname"].Str? && d["cname"].s in BloscCompressors)
       && IntFieldAccepted(d, "clevel", Some(0), 9) && IntFieldAccepted(d, "shuffle", Some(0), 2))
    && (tag == "bzip2" ==> IntFieldAccepted(d, "blockSize", Some(1), 9))
    && (tag == "gzip" ==> ("useZlib" in d ==> IsLaxBool(d["useZlib"])) && IntFieldAccepted(d, "level", Some(-1), 9))
    && (tag == "xz" ==> IntFieldAccepted(d, "preset", Some(0), 9))
    && (tag == "zstd" ==> IntFieldAccepted(d, "level", None, 22))
    && tag in {"blosc", "bzip2", "gzip", "raw", "xz", "zstd"}
  }

  /**
   * A compression value is accepted: after the shorthand it is an object whose `type` tag
   * names one of the six variants, whose fields that variant accepts. Keys the variant does
   * not declare are ignored.
   */
  predicate CompressionAccepted(v: Json)
  {
    var w := StrToCompression(v);
    w.Obj? && "type" in w.fields && w.fields["type"].Str? && VariantAccepted(w.fields, w.fields["type"].s)
  }

  /** `c` is the setting the dictionary gives: each field as given, or at its default when absent. */
  predicate Describes(d: map<string, Json>, c: Compression)
  {
    match c
    case Blosc(cname, clevel, shuffle) =>
      (if "cname" in d then d["cname"] == Str(cname) else cname == "lz4")
      && HoldsInt(d, "clevel", 5, clevel) && HoldsInt(d, "shuffle", 1, shuffle)
    case Bzip2(b) => HoldsInt(d, "blockSize", 9, b)
    case Gzip(level, useZlib) =>
      HoldsInt(d, "level", -1, level)
      && (if "useZlib" in d then IsLaxBool(d["useZlib"]) && useZlib == LaxBoolValue(d["useZlib"]) else !useZlib)
    case Raw => true
    case Xz(p) => HoldsInt(d, "preset", 6, p)
    case Zstd(level) => HoldsInt(d, "level", 0, level)
  }

  /**
   * An optional int field: absent gives the default; present must be an int within
   * [lo, hi], where a bool counts as the int 0 or 1.
   */
  function IntField(d: map<string, Json>, key: string, default: int, lo: Option<int>, hi: int): (r: Result<int, N5Error>)
    ensures r.Ok? <==> IntFieldAccepted(d, key, lo, hi)
    ensures r.Ok? ==> HoldsInt(d, key, default, r.value)
    ensures key in d && !IsPyInt(d[key]) ==> r == Err(FieldTypeError(key))
  {
    if key !in d then Ok(default)
    else if !IsPyInt(d[key]) then Err(FieldTypeError(key))
    else if (lo.Some? && PyIntValue(d[key]) < lo.value) || PyIntValue(d[key]) > hi then Err(FieldOutOfRange(key))
    else Ok(PyIntValue(d[key]))
  }

  /** `_N5CompressionBlosc`: cname one of six compressors (default "lz4"), clevel in [0, 9] (default 5), shuffle 0, 1 or 2 (default 1). */
  function ParseBlosc(d: map<string, Json>): (r: Result<Compression, N5Error>)
    ensures r.Ok? <==> VariantAccepted(d, "blosc")
    ensures r.Ok? ==> r.value.Blosc? && ValidCompression(r.value) && Describes(d, r.value)
  {
    var cname := if "cname" in d then d["cname"] else Str("lz4");
    if !(cname.Str? && cname.s in BloscCompressors) then Err(FieldOutOfRange("cname"))
    else
      match IntField(d, "clevel", 5, Some(0), 9)
      case Err(e) => Err(e)
      case Ok(clevel) =>
        match IntField(d, "shuffle", 1, Some(0), 2)
        case Err(e) => Err(e)
        case Ok(shuffle) => Ok(Blosc(cname.s, clevel, shuffle))
  }

  /** `_N5CompressionBzip2`: blockSize in [1, 9], default 9. */
  function ParseBzip2(d: map<string, Json>): (r: Result<Compression, N5Error>)
    ensures r.Ok? <==> VariantAccepted(d, "bzip2")
    ensures r.Ok? ==> r.value.Bzip2? && ValidCompression(r.value) && Describes(d, r.value)
  {
    match IntField(d, "blockSize", 9, Some(1), 9)
    case Err(e) => Err(e)
    case Ok(b) => Ok(Bzip2(b))
  }

  /** `_N5CompressionGzip`: level in [-1, 9] (default -1) and useZlib a bool (default false). */
  function ParseGzip(d: map<string, Json>): (r: Result<Compression, N5Error>)
    ensures r.Ok? <==> VariantAccepted(d, "gzip")
    ensures r.Ok? ==> r.value.Gzip? && ValidCompression(r.value) && Describes(d, r.value)
  {
    var useZlib := if "useZlib" in d then d["useZlib"] else Bool(false);
    if !IsLaxBool(useZlib) then Err(FieldTypeError("useZlib"))
    else
      match IntField(d, "level", -1, Some(-1), 9)
      case Err(e) => Err(e)
      case Ok(level) => Ok(Gzip(level, LaxBoolValue(useZlib)))
  }

  /** `_N5CompressionXZ`: preset in [0, 9], default 6. */
  function ParseXz(d: map<string, Json>): (r: Result<Compression, N5Error>)
    ensures r.Ok? <==> VariantAccepted(d, "xz")
    ensures r.Ok? ==> r.value.Xz? && ValidCompression(r.value) && Describes(d, r.value)
  {
    match IntField(d, "preset", 6, Some(0), 9)
    case Err(e) => Err(e)
    case Ok(p) => Ok(Xz(p))
  }

  /** `_N5CompressionZstd`: level at most 22 with no lower bound, default 0. */
  function ParseZstd(d: map<string, Json>): (r: Result<Compression, N5Error>)
    ensures r.Ok? <==> VariantAccepted(d, "zstd")
    ensures r.Ok? ==> r.value.Zstd? && ValidCompression(r.value) && Describes(d, r.value)
  {
    match IntField(d, "level", 0, None, 22)
    case Err(e) => Err(e)
    case Ok(level) => Ok(Zstd(level))
  }

  /**
   * Validating the `compression` field: the shorthand first, then the `type` discriminator
   * selects the variant whose fields are checked against their bounds, with defaults for
   * the fields left out.
   */
  function ParseCompression(v: Json): (r: Result<Compression, N5Error>)
    ensures r.Ok? <==> CompressionAccepted(v)
    ensures r.Ok? ==> ValidCompression(r.value) && StrToCompression(v).fields["type"] == Str(CompressionTag(r.value))
                      && Describes(StrToCompression(v).fields, r.value)
    ensures !v.Str? && !v.Obj? ==> r == Err(CompressionNotAnObject)
    ensures v.Obj? && "type" !in v.fields ==> r == Err(MissingDiscriminator)
    ensures StrToCompression(v).Obj? && "type" in StrToCompression(v).fields
            && StrToCompression(v).fields["type"] !in CompressionTags ==>
      r == Err(UnknownCompressionType(StrToCompression(v).fields["type"]))
  {
    var w := StrToCompression(v);
    if !w.Obj? then Err(CompressionNotAnObject)
    else
      var d := w.fields;
      if "type" !in d then Err(MissingDiscriminator)
      else if d["type"] == Str("blosc") then ParseBlosc(d)
      else if d["type"] == Str("bzip2") then ParseBzip2(d)
      else if d["type"] == Str("gzip") then ParseGzip(d)
      else if d["type"] == Str("raw") then Ok(Raw)
      else if d["type"] == Str("xz") then ParseXz(d)
      else if d["type"] == Str("zstd") then ParseZstd(d)
      else Err(UnknownCompressionType(d["type"]))
  }

  /** The JSON object a compression setting is written as. */
  function CompressionToJson(c: Compression): Json
  {
    match c
    case Blosc(cname, clevel, shuffle) =>
      Obj(map["type" := Str("blosc"), "cname" := Str(cname), "clevel" := Int(clevel), "shuffle" := Int(shuffle)])
    case Bzip2(b) => Obj(map["type" := Str("bzip2"), "blockSize" := Int(b)])
    case Gzip(level, useZlib) => Obj(map["type" := Str("gzip"), "level" := Int(level), "useZlib" := Bool(useZlib)])
    case Raw => Obj(map["type" := Str("raw")])
    case Xz(p) => Obj(map["type" := Str("xz"), "preset" := Int(p)])
    case Zstd(level) => Obj(map["type" := Str("zstd"), "level" := Int(level)])
  }

  /** Every valid compression setting, written out as JSON, validates back to itself. */
  lemma CompressionRoundTrip(c: Compression)
    requires ValidCompression(c)
    ensures ParseCompression(CompressionToJson(c)) == Ok(c)
  {
    match c
    case Blosc(cname, clevel, shuffle) =>
      var d := CompressionToJson(c).fields;
      assert d["type"] == Str("blosc") && d["cname"] == Str(cname);
      assert d["clevel"] == Int(clevel) && d["shuffle"] == Int(shuffle);
    case Bzip2(b) =>
      var d := CompressionToJson(c).fields;
      assert d["type"] != Str("blosc");
    case Gzip(level, useZlib) =>
      var d := CompressionToJson(c).fields;
      assert d["type"] != Str("blosc") && d["type"] != Str("bzip2");
      assert d["useZlib"] == Bool(useZlib) && d["level"] == Int(level);
    case Raw =>
      var d := CompressionToJson(c).fields;
      assert d["type"] != Str("blosc") && d["type"] != Str("bzip2") && d["type"] != Str("gzip");
    case Xz(p) =>
      var d := CompressionToJson(c).fields;
      assert d["type"] != Str("blosc") && d["type"] != Str("bzip2") && d["type"] != Str("gzip") && d["type"] != Str("raw");
    case Zstd(level) =>
      var d := CompressionToJson(c).fields;
      assert d["type"] != Str("blosc") && d["type"] != Str("bzip2") && d["type"] != Str("gzip") && d["type"] != Str("raw");
      assert d["type"] != Str("xz");
  }

  /** A bare type name selects that variant with every field at its default. */
  lemma CompressionDefaults()
    ensures ParseCompression(Str("blosc")) == Ok(Blosc("lz4", 5, 1))
    ensures ParseCompression(Str("bzip2")) == Ok(Bzip2(9))
    ensures ParseCompression(Str("gzip")) == Ok(Gzip(-1, false))
    ensures ParseCompression(Str("raw")) == Ok(Raw)
    ensures ParseCompression(Str("xz")) == Ok(Xz(6))
    ensures ParseCompression(Str("zstd")) == Ok(Zstd(0))
    ensures ParseCompression(Str("lzma")) == Err(UnknownCompressionType(Str("lzma")))
  {
    assert Str("bzip2") != Str("blosc");
    assert Str("gzip") != Str("blosc") && Str("gzip") != Str("bzip2");
    assert Str("raw") != Str("blosc") && Str("raw") != Str("bzip2") && Str("raw") != Str("gzip");
    assert Str("xz") != Str("blosc") && Str("xz") != Str("bzip2") && Str("xz") != Str("gzip") && Str("xz") != Str("raw");
    assert Str("zstd") != Str("blosc") && Str("zstd") != Str("bzip2") && Str("zstd") != Str("gzip");
    assert Str("zstd") != Str("raw") && Str("zstd") != Str("xz");
    assert Str("lzma") != Str("blosc") && Str("lzma") != Str("bzip2") && Str("lzma") != Str("gzip");
    assert Str("lzma") != Str("raw") && Str("lzma") != Str("xz") && Str("lzma") != Str("zstd");
  }

  /** A bool given for an int field counts as 0 or 1, and 0 or 1 given for `useZlib` counts as a bool. */
  lemma LaxFieldCoercions()
    ensures ParseCompression(Obj(map["type" := Str("blosc"), "clevel" := Bool(true)])) == Ok(Blosc("lz4", 1, 1))
    ensures ParseCompression(Obj(map["type" := Str("gzip"), "useZlib" := Int(1)])) == Ok(Gzip(-1, true))
    ensures ParseCompression(Obj(map["type" := Str("gzip"), "useZlib" := Int(2)])) == Err(FieldTypeError("useZlib"))
  {
    var b := map["type" := Str("blosc"), "clevel" := Bool(true)];
    assert b["type"] == Str("blosc") && "cname" !in b && "shuffle" !in b;
    var g := map["type" := Str("gzip"), "useZlib" := Int(1)];
    assert g["type"] != Str("blosc") && g["type"] != Str("bzip2") && g["type"] == Str("gzip");
    var h := map["type" := Str("gzip"), "useZlib" := Int(2)];
    assert h["type"] != Str("blosc") && h["type"] != Str("bzip2") && h["type"] == Str("gzip");
  }

  /** The zstd level has an upper bound of 22 and no lower bound. */
  lemma ZstdLevelBounds(level: int)
    ensures ParseCompression(Obj(map["type" := Str("zstd"), "level" := Int(level)])).Ok? <==> level <= 22
  {
    var d := map["type" := Str("zstd"), "level" := Int(level)];
    assert d["type"] != Str("blosc") && d["type"] != Str("bzip2") && d["type"] != Str("gzip") && d["type"] != Str("raw");
    assert d["type"] != Str("xz");
  }

  datatype N5Metadata = N5Metadata(
    dimensions: Option<seq<int>>,
    blockSize: Option<seq<int>>,
    dataType: Option<Types.DataType>,
    axes: Option<seq<string>>,
    units: Option<seq<string>>,
    resolution: Option<seq<real>>,
    compression: Option<Compression>,
    extra: map<string, Json>)

  /** Field constraints: dimensions are non-negative, block sizes positive, the data type an N5 type. */
  predicate MetadataFieldsInBounds(m: N5Metadata)
  {
    (m.dimensions.Some? ==> forall i :: 0 <= i < |m.dimensions.value| ==> m.dimensions.value[i] >= 0)
    && (m.blockSize.Some? ==> forall i :: 0 <= i < |m.blockSize.value| ==> m.blockSize.value[i] > 0)
    && (m.dataType.Some? ==> m.dataType.value in ValidN5DataTypes)
    && (m.compression.Some? ==> ValidCompression(m.compression.value))
  }

  /** Every per-dimension field that is set has one entry per dimension. */
  predicate ArraysConsistent(m: N5Metadata)
  {
    m.dimensions.Some? ==>
      (m.blockSize.Some? ==> |m.blockSize.value| == |m.dimensions.value|)
      && (m.axes.Some? ==> |m.axes.value| == |m.dimensions.value|)
      && (m.units.Some? ==> |m.units.value| == |m.dimensions.value|)
      && (m.resolution.Some? ==> |m.resolution.value| == |m.dimensions.value|)
  }

  /**
   * `_validate_array_consistency`: with dimensions set, blockSize, axes, units and resolution
   * are compared in that order against its length; the metadata is returned unchanged.
   */
  function CheckArrayConsistency(m: N5Metadata): (r: Result<N5Metadata, N5Error>)
    ensures r.Ok? <==> ArraysConsistent(m)
    ensures r.Ok? ==> r.value == m
    ensures m.dimensions.None? ==> r == Ok(m)
    ensures r.Err? ==> r.error.ArrayLengthMismatch? && r.error.dimensions == |m.dimensions.value|
                       && r.error.length != r.error.dimensions
  {
    if m.dimensions.None? then Ok(m)
    else
      var n := |m.dimensions.value|;
      if m.blockSize.Some? && |m.blockSize.value| != n then Err(ArrayLengthMismatch("blockSize", |m.blockSize.value|, n))
      else if m.axes.Some? && |m.axes.value| != n then Err(ArrayLengthMismatch("axes", |m.axes.value|, n))
      else if m.units.Some? && |m.units.value| != n then Err(ArrayLengthMismatch("units", |m.units.value|, n))
      else if m.resolution.Some? && |m.resolution.value| != n then Err(ArrayLengthMismatch("resolution", |m.resolution.value|, n))
      else Ok(m)
  }

  /** The blockSize check comes first: a wrong blockSize is reported even when axes are wrong too. */
  lemma BlockSizeReportedFirst(m: N5Metadata)
    requires m.dimensions.Some? && m.blockSize.Some? && |m.blockSize.value| != |m.dimensions.value|
    ensures CheckArrayConsistency(m) == Err(ArrayLengthMismatch("blockSize", |m.blockSize.value|, |m.dimensions.value|))
  {
  }

  /** `N5Spec` and `N5Codec`: the driver literal and the optional metadata or compression. */
  const N5Driver := "n5"

  datatype N5Codec = N5Codec(compression: Option<Compression>)
}
