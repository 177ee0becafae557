/**
 * The Zarr v3 driver records: the sixteen allowed data types, the regular chunk grid with
 * positive chunk extents, non-negative array extents, and the metadata defaults.
 */
module Zarr3 {
  import opened Wrappers
  import opened Json
  import Types
  import InternalN5

  datatype Zarr3Error =
    | InvalidDataType(value: Json)
    | MissingField(field: string)
    | FieldTypeError(field: string)
    | ChunkShapeNotPositive(index: nat)
    | ShapeNegative
    | UnsupportedChunkGrid(name: Json)

  /** `Zarr3DataType`: bool, the integer types from int4, float16 to float64, bfloat16 and both complex types. */
  const Zarr3DataTypes: set<Types.DataType> := {
    Types.BFloat16, Types.Bool, Types.Complex128, Types.Complex64,
    Types.Float16, Types.Float32, Types.Float64,
    Types.Int4, Types.Int8, Types.Int16, Types.Int32, Types.Int64,
    Types.UInt8, Types.UInt16, Types.UInt32, Types.UInt64}

  /** The data-type literal: the value of one of the sixteen members. */
  function ParseZarr3DataType(v: Json): (r: Result<Types.DataType, Zarr3Error>)
    ensures r.Ok? <==> v.Str? && exists d :: d in Zarr3DataTypes && Types.DataTypeName(d) == v.s
    ensures r.Ok? ==> r.value in Zarr3DataTypes && Types.DataTypeName(r.value) == v.s
  {
    if !v.Str? then Err(InvalidDataType(v))
    else
      Types.ParseDataTypeExact(v.s);
      match Types.ParseDataType(v.s)
      case None => Err(InvalidDataType(v))
      case Some(d) =>
        if d in Zarr3DataTypes then Ok(d)
        else
          assert forall e :: Types.DataTypeName(e) == v.s ==> e == d by {
            forall e | Types.DataTypeName(e) == v.s ensures e == d {
              Types.DataTypeNamesInjective(e, d);
            }
          }
          Err(InvalidDataType(v))
  }

  /** Every N5 data type is a Zarr v3 data type; the string, json and 8-bit float types are neither. */
  lemma N5TypesAreZarr3Types()
    ensures InternalN5.ValidN5DataTypes <= Zarr3DataTypes
    ensures Types.String !in Zarr3DataTypes && Types.Json !in Zarr3DataTypes && Types.Float8E4M3FN !in Zarr3DataTypes
    ensures |Zarr3DataTypes| == 16
  {
  }

  /** The regular chunk grid: its only name, and the optional chunk extents. */
  datatype ChunkGrid = ChunkGrid(name: string, chunkShape: Option<seq<int>>)

  /** A chunk configuration `_ZarrChunkConfiguration` accepts: no chunk_shape, None, or ints each at least 1. */
  predicate ChunkShapeAccepted(c: map<string, Json>)
  {
    "chunk_shape" !in c || c["chunk_shape"].Null? || IsPositiveIntList(c["chunk_shape"])
  }

  /** `_ZarrChunkConfiguration.chunk_shape`: missing or null, or a list of ints each at least 1. */
  function ParseChunkShape(c: map<string, Json>): (r: Result<Option<seq<int>>, Zarr3Error>)
    ensures r.Ok? <==> ChunkShapeAccepted(c)
    ensures r.Ok? ==> (r.value.None? <==> "chunk_shape" !in c || c["chunk_shape"].Null?)
    ensures r.Ok? && r.value.Some? ==>
      IsIntListOf(c["chunk_shape"], r.value.value) && forall i :: 0 <= i < |r.value.value| ==> r.value.value[i] >= 1
  {
    if "chunk_shape" !in c || c["chunk_shape"].Null? then Ok(None)
    else if !c["chunk_shape"].Arr? then Err(FieldTypeError("chunk_shape"))
    else match FirstNonPositive(c["chunk_shape"].items)
      case Some(i) => Err(ChunkShapeNotPositive(i))
      case None => Ok(Some(IntValues(c["chunk_shape"].items)))
  }

  /** A chunk grid `_ZarrChunkGrid` accepts: named "regular" or unnamed, with a configuration dictionary. */
  predicate ChunkGridAccepted(g: Json)
  {
    g.Obj? && ("name" in g.fields ==> g.fields["name"] == Str("regular"))
    && "configuration" in g.fields && g.fields["configuration"].Obj?
    && ChunkShapeAccepted(g.fields["configuration"].fields)
  }

  /** `_ZarrChunkGrid`: the name defaults to "regular" and may be nothing else; the configuration is required. */
  function ParseChunkGrid(g: Json): (r: Result<ChunkGrid, Zarr3Error>)
    ensures r.Ok? <==> ChunkGridAccepted(g)
    ensures r.Ok? ==> r.value.name == "regular"
                      && r.value.chunkShape == ParseChunkShape(g.fields["configuration"].fields).value
  {
    if !g.Obj? then Err(FieldTypeError("chunk_grid"))
    else if "name" in g.fields && g.fields["name"] != Str("regular") then Err(UnsupportedChunkGrid(g.fields["name"]))
    else if "configuration" !in g.fields then Err(MissingField("configuration"))
    else if !g.fields["configuration"].Obj? then Err(FieldTypeError("configuration"))
    else
      match ParseChunkShape(g.fields["configuration"].fields)
      case Err(e) => Err(e)
      case Ok(shape) => Ok(ChunkGrid("regular", shape))
  }

  datatype Zarr3Metadata = Zarr3Metadata(
    zarrFormat: int,
    nodeType: string,
    shape: seq<int>,
    dataType: Types.DataType,
    chunkGrid: Option<ChunkGrid>,
    chunkKeyEncoding: map<string, Json>,
    fillValue: Json,
    codecs: Json,
    dimensionNames: Json,
    attributes: map<string, Json>,
    extra: map<string, Json>)

  const MetadataFields: set<string> := {
    "zarr_format", "node_type", "shape", "data_type", "chunk_grid", "chunk_key_encoding",
    "fill_value", "codecs", "dimension_names", "attributes"}

  const DefaultChunkKeyEncoding: map<string, Json> := map["name" := Str("default"), "separator" := Str("/")]

  predicate IsNonNegativeInt(v: Json) { IsPyInt(v) && PyIntValue(v) >= 0 }

  predicate IsCodecList(v: Json) { v.Null? || (v.Arr? && forall i :: 0 <= i < |v.items| ==> v.items[i].Obj?) }

  predicate IsDimensionNames(v: Json) { v.Null? || (v.Arr? && forall i :: 0 <= i < |v.items| ==> v.items[i].Null? || v.items[i].Str?) }

  /** A data-type value the literal accepts: the name of one of the sixteen members. */
  predicate DataTypeAccepted(v: Json)
  {
    v.Str? && exists d :: d in Zarr3DataTypes && Types.DataTypeName(d) == v.s
  }

  /** The dictionaries `Zarr3Metadata` accepts, field by field. */
  predicate MetadataAccepted(d: map<string, Json>)
  {
    ("zarr_format" in d ==> d["zarr_format"] == Int(3))
    && ("node_type" in d ==> d["node_type"] == Str("array"))
    && "shape" in d && d["shape"].Arr? && (forall i :: 0 <= i < |d["shape"].items| ==> IsNonNegativeInt(d["shape"].items[i]))
    && "data_type" in d && DataTypeAccepted(d["data_type"])
    && ("chunk_grid" in d && !d["chunk_grid"].Null? ==> ChunkGridAccepted(d["chunk_grid"]))
    && OptionalFieldsAccepted(d)
  }

  /** The optional fields after the chunk grid, each of its declared type when given. */
  predicate OptionalFieldsAccepted(d: map<string, Json>)
  {
    ("chunk_key_encoding" in d ==> d["chunk_key_encoding"].Obj?)
    && ("fill_value" in d ==> !d["fill_value"].Obj?)
    && ("codecs" in d ==> IsCodecList(d["codecs"]))
    && ("dimension_names" in d ==> IsDimensionNames(d["dimension_names"]))
    && ("attributes" in d ==> d["attributes"].Obj?)
  }

  /** The first optional field, in declaration order, whose value has the wrong type. */
  function OptionalFieldError(d: map<string, Json>): (r: Option<Zarr3Error>)
    ensures r.None? <==> OptionalFieldsAccepted(d)
  {
    if "chunk_key_encoding" in d && !d["chunk_key_encoding"].Obj? then Some(FieldTypeError("chunk_key_encoding"))
    else if "fill_value" in d && d["fill_value"].Obj? then Some(FieldTypeError("fill_value"))
    else if "codecs" in d && !IsCodecList(d["codecs"]) then Some(FieldTypeError("codecs"))
    else if "dimension_names" in d && !IsDimensionNames(d["dimension_names"]) then Some(FieldTypeError("dimension_names"))
    else if "attributes" in d && !d["attributes"].Obj? then Some(FieldTypeError("attributes"))
    else None
  }

  /** The chunk grid field: missing or None gives no grid, anything else is built as a `_ZarrChunkGrid`. */
  function ParseOptionalChunkGrid(d: map<string, Json>): (r: Result<Option<ChunkGrid>, Zarr3Error>)
    ensures r.Ok? <==> ("chunk_grid" in d && !d["chunk_grid"].Null? ==> ChunkGridAccepted(d["chunk_grid"]))
    ensures r.Ok? ==> (r.value.None? <==> "chunk_grid" !in d || d["chunk_grid"].Null?)
    ensures r.Ok? && r.value.Some? ==> r.value.value == ParseChunkGrid(d["chunk_grid"]).value
  {
    if "chunk_grid" !in d || d["chunk_grid"].Null? then Ok(None)
    else match ParseChunkGrid(d["chunk_grid"])
      case Err(e) => Err(e)
      case Ok(g) => Ok(Some(g))
  }

  /**
   * Building `Zarr3Metadata` from a dictionary: shape and data_type are required, shape
   * entries are non-negative, zarr_format is 3 and node_type "array", the chunk key encoding
   * and attributes have their defaults, and unknown keys are kept.
   */
  function ParseZarr3Metadata(d: map<string, Json>): (r: Result<Zarr3Metadata, Zarr3Error>)
    ensures r.Ok? <==> MetadataAccepted(d)
    ensures r.Ok? ==> r.value.zarrFormat == 3 && r.value.nodeType == "array"
    ensures r.Ok? ==> IsIntListOf(d["shape"], r.value.shape) && forall i :: 0 <= i < |r.value.shape| ==> r.value.shape[i] >= 0
    ensures r.Ok? ==> r.value.dataType in Zarr3DataTypes && d["data_type"] == Str(Types.DataTypeName(r.value.dataType))
    ensures r.Ok? ==> (r.value.chunkGrid.None? <==> "chunk_grid" !in d || d["chunk_grid"].Null?)
    ensures r.Ok? && r.value.chunkGrid.Some? ==> r.value.chunkGrid.value == ParseChunkGrid(d["chunk_grid"]).value
    ensures r.Ok? && "chunk_key_encoding" in d ==> r.value.chunkKeyEncoding == d["chunk_key_encoding"].fields
    ensures r.Ok? && "chunk_key_encoding" !in d ==> r.value.chunkKeyEncoding == DefaultChunkKeyEncoding
    ensures r.Ok? ==> r.value.fillValue == Get(d, "fill_value") && r.value.codecs == Get(d, "codecs")
                      && r.value.dimensionNames == Get(d, "dimension_names")
    ensures r.Ok? && "attributes" in d ==> r.value.attributes == d["attributes"].fields
    ensures r.Ok? && "attributes" !in d ==> r.value.attributes == map[]
    ensures r.Ok? ==> r.value.extra.Keys == d.Keys - MetadataFields && forall k :: k in r.value.extra ==> r.value.extra[k] == d[k]
  {
    if "zarr_format" in d && d["zarr_format"] != Int(3) then Err(FieldTypeError("zarr_format"))
    else if "node_type" in d && d["node_type"] != Str("array") then Err(FieldTypeError("node_type"))
    else if "shape" !in d then Err(MissingField("shape"))
    else if !d["shape"].Arr? then Err(FieldTypeError("shape"))
    else if !(forall i :: 0 <= i < |d["shape"].items| ==> IsNonNegativeInt(d["shape"].items[i])) then Err(ShapeNegative)
    else if "data_type" !in d then Err(MissingField("data_type"))
    else
      match ParseZarr3DataType(d["data_type"])
      case Err(e) => Err(e)
      case Ok(dataType) =>
        match ParseOptionalChunkGrid(d)
        case Err(e) => Err(e)
        case Ok(chunkGrid) =>
          if OptionalFieldError(d).Some? then Err(OptionalFieldError(d).value)
          else
            Ok(Zarr3Metadata(
              3, "array",
              IntValues(d["shape"].items),
              dataType,
              chunkGrid,
              if "chunk_key_encoding" in d then d["chunk_key_encoding"].fields else DefaultChunkKeyEncoding,
              Get(d, "fill_value"),
              Get(d, "codecs"),
              Get(d, "dimension_names"),
              if "attributes" in d then d["attributes"].fields else map[],
              map k | k in d && k !in MetadataFields :: d[k]))
  }

  /** The smallest metadata: a shape and a data type, everything else at its default. */
  lemma MinimalMetadata()
    ensures ParseZarr3Metadata(map["shape" := Arr([Int(0), Int(5)]), "data_type" := Str("uint8")])
      == Ok(Zarr3Metadata(3, "array", [0, 5], Types.UInt8, None, DefaultChunkKeyEncoding, Null, Null, Null, map[], map[]))
  {
    var d := map["shape" := Arr([Int(0), Int(5)]), "data_type" := Str("uint8")];
    Types.DataTypeRoundTrip(Types.UInt8);
    assert ParseZarr3DataType(d["data_type"]) == Ok(Types.UInt8);
    assert ParseOptionalChunkGrid(d) == Ok(None) && OptionalFieldError(d).None?;
    assert IsNonNegativeInt(d["shape"].items[0]) && IsNonNegativeInt(d["shape"].items[1]);
    assert IntValues(d["shape"].items) == [0, 5];
    assert (map k | k in d && k !in MetadataFields :: d[k]) == map[];
  }

  /** A chunk extent of zero and a grid named other than "regular" are both rejected. */
  lemma ChunkGridRejections()
    ensures ParseChunkGrid(Obj(map["configuration" := Obj(map["chunk_shape" := Arr([Int(0)])])])).Err?
    ensures ParseChunkGrid(Obj(map["name" := Str("rectilinear"), "configuration" := Obj(map[])])).Err?
  {
    var c := map["chunk_shape" := Arr([Int(0)])];
    assert !IsPositiveInt(c["chunk_shape"].items[0]);
  }

  /** `Zarr3Spec`: driver "zarr3" and optional metadata. */
  datatype Zarr3Spec = Zarr3Spec(metadata: Option<Zarr3Metadata>)

  /** The dictionaries `Zarr3Spec` accepts: the driver literal, and metadata that is None or accepted metadata. */
  predicate SpecAccepted(d: map<string, Json>)
  {
    ("driver" in d ==> d["driver"] == Str("zarr3"))
    && ("metadata" in d && !d["metadata"].Null? ==> d["metadata"].Obj? && MetadataAccepted(d["metadata"].fields))
  }

  /** Building a `Zarr3Spec` from a dictionary; a metadata dictionary is built into `Zarr3Metadata`. */
  function ParseZarr3Spec(d: map<string, Json>): (r: Result<Zarr3Spec, Zarr3Error>)
    ensures r.Ok? <==> SpecAccepted(d)
    ensures r.Ok? ==> (r.value.metadata.None? <==> "metadata" !in d || d["metadata"].Null?)
    ensures r.Ok? && r.value.metadata.Some? ==> r.value.metadata.value == ParseZarr3Metadata(d["metadata"].fields).value
  {
    if "driver" in d && d["driver"] != Str("zarr3") then Err(FieldTypeError("driver"))
    else if "metadata" !in d || d["metadata"].Null? then Ok(Zarr3Spec(None))
    else if !d["metadata"].Obj? then Err(FieldTypeError("metadata"))
    else
      match ParseZarr3Metadata(d["metadata"].fields)
      case Err(e) => Err(e)
      case Ok(m) => Ok(Zarr3Spec(Some(m)))
  }

  /** A spec with a shape-and-type metadata dictionary holds that metadata; a zero chunk extent is rejected. */
  lemma SpecExamples()
    ensures ParseZarr3Spec(map["metadata" := Obj(map["shape" := Arr([Int(0), Int(5)]), "data_type" := Str("uint8")])])
      == Ok(Zarr3Spec(Some(Zarr3Metadata(3, "array", [0, 5], Types.UInt8, None, DefaultChunkKeyEncoding, Null, Null, Null, map[], map[]))))
    ensures ParseZarr3Spec(map["metadata" := Obj(map["shape" := Arr([Int(4)]), "data_type" := Str("uint8"),
                                                     "chunk_grid" := Obj(map["configuration" := Obj(map["chunk_shape" := Arr([Int(0)])])])])]).Err?
  {
    MinimalMetadata();
    ChunkGridRejections();
  }
}
