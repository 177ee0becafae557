/**
 * The first-draft N5 driver: positive-integer lists for dimensions and block sizes, the
 * ten-name data-type allow-list, the compression default, the effective path, and the
 * two data-type conversion tables.
 */
module N5 {
  import opened Wrappers
  import opened Json
  import Types
  import DriverSpec
  import PathJoin
  import InternalN5

  datatype N5Error =
    | NotAList(field: string)
    | ElementNotPositive(field: string, index: nat)
    | DataTypeNotAString
    | InvalidN5DataType(name: string)
    | MissingField(field: string)
    | FieldTypeError(field: string)
    | UnsupportedDataType(dataType: Types.DataType)
    | UnsupportedN5DataType(name: string)
    | UnknownFields(names: set<string>)

  /**
   * `validate_int_list` for `field`: a list is required, and the first element that is not
   * a positive int is reported by its index; an accepted list yields its integer values.
   */
  function ValidateIntList(field: string, v: Json): (r: Result<seq<int>, N5Error>)
    ensures !v.Arr? ==> r == Err(NotAList(field))
    ensures v.Arr? ==> (r.Ok? <==> forall i :: 0 <= i < |v.items| ==> IsPositiveInt(v.items[i]))
    ensures r.Ok? ==> |r.value| == |v.items|
                      && forall i :: 0 <= i < |r.value| ==> r.value[i] == PyIntValue(v.items[i]) && r.value[i] > 0
    ensures v.Arr? && r.Err? ==> r.error.ElementNotPositive? && r.error.field == field
                                 && r.error.index < |v.items| && !IsPositiveInt(v.items[r.error.index])
                                 && forall j :: 0 <= j < r.error.index ==> IsPositiveInt(v.items[j])
  {
    if !v.Arr? then Err(NotAList(field))
    else match FirstNonPositive(v.items)
      case Some(i) => Err(ElementNotPositive(field, i))
      case None => Ok(IntValues(v.items))
  }

  /** The data-type names N5 accepts. */
  const N5TypeNames: set<string> := {
    "uint8", "uint16", "uint32", "uint64",
    "int8", "int16", "int32", "int64",
    "float32", "float64"}

  /** `validate_data_type`: a string from the allow-list, returned unchanged. */
  function ValidateDataType(v: Json): (r: Result<string, N5Error>)
    ensures r.Ok? <==> v.Str? && v.s in N5TypeNames
    ensures r.Ok? ==> r.value == v.s
    ensures !v.Str? ==> r == Err(DataTypeNotAString)
  {
    if !v.Str? then Err(DataTypeNotAString)
    else if v.s !in N5TypeNames then Err(InvalidN5DataType(v.s))
    else Ok(v.s)
  }

  /**
   * The first-draft N5 metadata record. The base fields it inherits are kept in `base`;
   * other unknown keys are kept in `extra`.
   */
  datatype N5Metadata = N5Metadata(
    dimensions: seq<int>,
    blockSize: seq<int>,
    dataType: string,
    compression: map<string, Json>,
    axes: Option<seq<string>>,
    units: Option<seq<string>>,
    resolution: Option<seq<real>>,
    offset: Option<seq<real>>,
    base: map<string, Json>,
    extra: map<string, Json>)

  const MetadataFields: set<string> :=
    {"dimensions", "blockSize", "dataType", "compression", "axes", "units", "resolution", "offset"}

  const DefaultCompression: map<string, Json> := map["type" := Str("raw")]

  predicate AllStrings(items: seq<Json>) { forall i :: 0 <= i < |items| ==> items[i].Str? }
  predicate AllNumbers(items: seq<Json>) { forall i :: 0 <= i < |items| ==> NumValue(items[i]).Some? }

  /** `list[str] | None` under `key`: missing or None, or a list of strings. */
  predicate StringListAccepted(d: map<string, Json>, key: string)
  {
    key !in d || d[key].Null? || (d[key].Arr? && AllStrings(d[key].items))
  }

  /** `list[float] | None` under `key`: missing or None, or a list of numbers (ints and bools included). */
  predicate NumberListAccepted(d: map<string, Json>, key: string)
  {
    key !in d || d[key].Null? || (d[key].Arr? && AllNumbers(d[key].items))
  }

  /** `o` holds the strings listed under `key`, or None when the key is missing or None. */
  predicate HoldsStrings(d: map<string, Json>, key: string, o: Option<seq<string>>)
  {
    (o.None? <==> key !in d || d[key].Null?)
    && (o.Some? ==> key in d && d[key].Arr? && |d[key].items| == |o.value|
                    && forall i :: 0 <= i < |o.value| ==> d[key].items[i] == Str(o.value[i]))
  }

  /** `o` holds the numeric values listed under `key`, or None when the key is missing or None. */
  predicate HoldsNumbers(d: map<string, Json>, key: string, o: Option<seq<real>>)
  {
    (o.None? <==> key !in d || d[key].Null?)
    && (o.Some? ==> key in d && d[key].Arr? && |d[key].items| == |o.value|
                    && forall i :: 0 <= i < |o.value| ==> NumValue(d[key].items[i]) == Some(o.value[i]))
  }

  /** An optional list of strings: missing or null gives None. */
  function StringListField(d: map<string, Json>, key: string): (r: Result<Option<seq<string>>, N5Error>)
    ensures r.Ok? <==> StringListAccepted(d, key)
    ensures r.Ok? ==> HoldsStrings(d, key, r.value)
  {
    if key !in d || d[key].Null? then Ok(None)
    else if !(d[key].Arr? && AllStrings(d[key].items)) then Err(FieldTypeError(key))
    else Ok(Some(seq(|d[key].items|, i requires 0 <= i < |d[key].items| => d[key].items[i].s)))
  }

  /** An optional list of floats (ints and bools are accepted as numbers): missing or null gives None. */
  function NumberListField(d: map<string, Json>, key: string): (r: Result<Option<seq<real>>, N5Error>)
    ensures r.Ok? <==> NumberListAccepted(d, key)
    ensures r.Ok? ==> HoldsNumbers(d, key, r.value)
  {
    if key !in d || d[key].Null? then Ok(None)
    else if !(d[key].Arr? && AllNumbers(d[key].items)) then Err(FieldTypeError(key))
    else Ok(Some(seq(|d[key].items|, i requires 0 <= i < |d[key].items| => NumValue(d[key].items[i]).value)))
  }

  /** The keys that are neither declared metadata fields nor inherited base fields. */
  function ExtraFields(d: map<string, Json>): (r: map<string, Json>)
    ensures r.Keys == d.Keys - MetadataFields - DriverSpec.BaseDriverFields
    ensures forall k :: k in r ==> r[k] == d[k]
  {
    map k | k in d && k !in MetadataFields && k !in DriverSpec.BaseDriverFields :: d[k]
  }

  /** The dictionaries `N5Metadata` accepts, field by field. */
  predicate MetadataAccepted(d: map<string, Json>)
  {
    DriverSpec.BaseFieldsShaped(d)
    && "dimensions" in d && IsPositiveIntList(d["dimensions"])
    && "blockSize" in d && IsPositiveIntList(d["blockSize"])
    && "dataType" in d && d["dataType"].Str? && d["dataType"].s in N5TypeNames
    && ("compression" in d ==> d["compression"].Obj?)
    && StringListAccepted(d, "axes") && StringListAccepted(d, "units")
    && NumberListAccepted(d, "resolution") && NumberListAccepted(d, "offset")
  }

  /**
   * Building an `N5Metadata` from a dictionary: dimensions, blockSize and dataType are
   * required; compression defaults to `{"type": "raw"}`; the per-dimension fields are
   * not compared with each other. Every field holds the value the dictionary gives.
   */
  function ParseN5Metadata(d: map<string, Json>): (r: Result<N5Metadata, N5Error>)
    ensures r.Ok? <==> MetadataAccepted(d)
    ensures r.Ok? ==> IsIntListOf(d["dimensions"], r.value.dimensions) && IsIntListOf(d["blockSize"], r.value.blockSize)
                      && (forall i :: 0 <= i < |r.value.dimensions| ==> r.value.dimensions[i] > 0)
                      && (forall i :: 0 <= i < |r.value.blockSize| ==> r.value.blockSize[i] > 0)
                      && d["dataType"] == Str(r.value.dataType)
    ensures r.Ok? && "compression" in d ==> r.value.compression == d["compression"].fields
    ensures r.Ok? && "compression" !in d ==> r.value.compression == DefaultCompression
    ensures r.Ok? ==> HoldsStrings(d, "axes", r.value.axes) && HoldsStrings(d, "units", r.value.units)
                      && HoldsNumbers(d, "resolution", r.value.resolution) && HoldsNumbers(d, "offset", r.value.offset)
    ensures r.Ok? ==> r.value.base == DriverSpec.BaseFieldValues(d) && r.value.extra == ExtraFields(d)
  {
    match DriverSpec.FirstMisshapedBaseField(d)
    case Some(k) => Err(FieldTypeError(k))
    case None =>
      if "dimensions" !in d then Err(MissingField("dimensions"))
      else if "blockSize" !in d then Err(MissingField("blockSize"))
      else if "dataType" !in d then Err(MissingField("dataType"))
      else
        match ValidateIntList("dimensions", d["dimensions"])
        case Err(e) => Err(e)
        case Ok(dimensions) =>
          match ValidateIntList("blockSize", d["blockSize"])
          case Err(e) => Err(e)
          case Ok(blockSize) =>
            match ValidateDataType(d["dataType"])
            case Err(e) => Err(e)
            case Ok(dataType) =>
              if "compression" in d && !d["compression"].Obj? then Err(FieldTypeError("compression"))
              else
                var compression := if "compression" in d then d["compression"].fields else DefaultCompression;
                match StringListField(d, "axes")
                case Err(e) => Err(e)
                case Ok(axes) =>
                  match StringListField(d, "units")
                  case Err(e) => Err(e)
                  case Ok(units) =>
                    match NumberListField(d, "resolution")
                    case Err(e) => Err(e)
                    case Ok(resolution) =>
                      match NumberListField(d, "offset")
                      case Err(e) => Err(e)
                      case Ok(offset) =>
                        Ok(N5Metadata(dimensions, blockSize, dataType, compression, axes, units,
                                      resolution, offset, DriverSpec.BaseFieldValues(d), ExtraFields(d)))
  }

  /**
   * The two drafts disagree on zero-length dimensions and on length consistency: this
   * draft rejects a zero dimension that the other accepts, and accepts a block size whose
   * length differs from the dimensions', which the other rejects.
   */
  lemma DraftsDisagree()
    ensures ParseN5Metadata(map["dimensions" := Arr([Int(0)]), "blockSize" := Arr([Int(1)]),
                                "dataType" := Str("uint8")]).Err?
    ensures InternalN5.MetadataFieldsInBounds(InternalN5.N5Metadata(Some([0]), Some([1]), Some(Types.UInt8),
                                              None, None, None, None, map[]))
    ensures ParseN5Metadata(map["dimensions" := Arr([Int(4), Int(4)]), "blockSize" := Arr([Int(2)]),
                                "dataType" := Str("uint8")]).Ok?
    ensures InternalN5.CheckArrayConsistency(InternalN5.N5Metadata(Some([4, 4]), Some([2]), Some(Types.UInt8),
                                             None, None, None, None, map[])).Err?
  {
    var d := map["dimensions" := Arr([Int(0)]), "blockSize" := Arr([Int(1)]), "dataType" := Str("uint8")];
    assert !IsPositiveInt(d["dimensions"].items[0]);
    var e := map["dimensions" := Arr([Int(4), Int(4)]), "blockSize" := Arr([Int(2)]), "dataType" := Str("uint8")];
    assert IsPositiveInt(e["dimensions"].items[0]) && IsPositiveInt(e["dimensions"].items[1]);
    assert IsPositiveInt(e["blockSize"].items[0]);
  }

  /** An `N5Spec`: driver fixed to "n5", a required kvstore, a path defaulting to "". */
  datatype N5Spec = N5Spec(kvstore: map<string, Json>, path: string, metadata: Option<Json>)

  const SpecFields: set<string> := {"driver", "kvstore", "path", "metadata"} + DriverSpec.BaseDriverFields

  /** The dictionaries `N5Spec` accepts: known keys only, each holding a value of its field's type. */
  predicate SpecAccepted(d: map<string, Json>)
  {
    d.Keys <= SpecFields && DriverSpec.BaseFieldsShaped(d)
    && ("driver" in d ==> d["driver"] == Str("n5"))
    && "kvstore" in d && d["kvstore"].Obj?
    && ("path" in d ==> d["path"].Str?)
    && ("metadata" in d ==> d["metadata"].Null? || d["metadata"].Obj?)
  }

  /**
   * Building an `N5Spec` from a dictionary; unknown keys are rejected, and the metadata is
   * None or a dictionary (either an `N5Metadata` or a plain JSON object).
   */
  function ParseN5Spec(d: map<string, Json>): (r: Result<N5Spec, N5Error>)
    ensures r.Ok? <==> SpecAccepted(d)
    ensures r.Ok? ==> r.value.kvstore == d["kvstore"].fields
    ensures r.Ok? && "path" in d ==> r.value.path == d["path"].s
    ensures r.Ok? && "path" !in d ==> r.value.path == ""
    ensures r.Ok? ==> (r.value.metadata.None? <==> "metadata" !in d || d["metadata"].Null?)
    ensures r.Ok? && r.value.metadata.Some? ==> r.value.metadata.value == d["metadata"] && d["metadata"].Obj?
  {
    if !(d.Keys <= SpecFields) then Err(UnknownFields(d.Keys - SpecFields))
    else if DriverSpec.FirstMisshapedBaseField(d).Some? then Err(FieldTypeError(DriverSpec.FirstMisshapedBaseField(d).value))
    else if "driver" in d && d["driver"] != Str("n5") then Err(FieldTypeError("driver"))
    else if "kvstore" !in d then Err(MissingField("kvstore"))
    else if !d["kvstore"].Obj? then Err(FieldTypeError("kvstore"))
    else if "path" in d && !d["path"].Str? then Err(FieldTypeError("path"))
    else if "metadata" in d && !(d["metadata"].Null? || d["metadata"].Obj?) then Err(FieldTypeError("metadata"))
    else
      var path := if "path" in d then d["path"].s else "";
      var metadata := if "metadata" !in d || d["metadata"].Null? then None else Some(d["metadata"]);
      Ok(N5Spec(d["kvstore"].fields, path, metadata))
  }

  /** A metadata value that is neither None nor a dictionary, such as the number 5, is rejected. */
  lemma NonObjectMetadataRejected(kv: map<string, Json>)
    ensures ParseN5Spec(map["kvstore" := Obj(kv), "metadata" := Int(5)]).Err?
    ensures ParseN5Spec(map["kvstore" := Obj(kv), "schema" := Int(5)]).Err?
    ensures ParseN5Spec(map["kvstore" := Obj(kv), "metadata" := Null]) == Ok(N5Spec(kv, "", None))
  {
    var d := map["kvstore" := Obj(kv), "schema" := Int(5)];
    assert "schema" in d && "schema" in DriverSpec.BaseDriverFields && !(d["schema"].Null? || d["schema"].Obj?);
  }

  /** `get_effective_path`: the stripped join of the store path and the spec path. */
  function EffectivePath(spec: N5Spec, strOf: Json -> string): string
  {
    PathJoin.StripEffectivePath(spec.kvstore, spec.path, strOf)
  }

  /** `tensorstore_dtype_to_n5`. */
  function TensorstoreDtypeToN5(d: Types.DataType): (r: Result<string, N5Error>)
    ensures r.Ok? ==> r.value == Types.DataTypeName(d) && r.value in N5TypeNames
  {
    match d
    case UInt8 => Ok("uint8")
    case UInt16 => Ok("uint16")
    case UInt32 => Ok("uint32")
    case UInt64 => Ok("uint64")
    case Int8 => Ok("int8")
    case Int16 => Ok("int16")
    case Int32 => Ok("int32")
    case Int64 => Ok("int64")
    case Float32 => Ok("float32")
    case Float64 => Ok("float64")
    case _ => Err(UnsupportedDataType(d))
  }

  /** `n5_dtype_to_tensorstore`. */
  function N5DtypeToTensorstore(s: string): (r: Result<Types.DataType, N5Error>)
    ensures r.Ok? ==> Types.DataTypeName(r.value) == s
  {
    if s == "uint8" then Ok(Types.UInt8)
    else if s == "uint16" then Ok(Types.UInt16)
    else if s == "uint32" then Ok(Types.UInt32)
    else if s == "uint64" then Ok(Types.UInt64)
    else if s == "int8" then Ok(Types.Int8)
    else if s == "int16" then Ok(Types.Int16)
    else if s == "int32" then Ok(Types.Int32)
    else if s == "int64" then Ok(Types.Int64)
    else if s == "float32" then Ok(Types.Float32)
    else if s == "float64" then Ok(Types.Float64)
    else Err(UnsupportedN5DataType(s))
  }

  /**
   * The two tables are mutually inverse on the ten supported types, both reject every
   * other input, and the supported names are exactly the ones `validate_data_type` accepts.
   */
  lemma DtypeTablesInverse(d: Types.DataType, s: string)
    ensures TensorstoreDtypeToN5(d).Ok? ==> N5DtypeToTensorstore(TensorstoreDtypeToN5(d).value) == Ok(d)
    ensures N5DtypeToTensorstore(s).Ok? ==> TensorstoreDtypeToN5(N5DtypeToTensorstore(s).value) == Ok(s)
    ensures N5DtypeToTensorstore(s).Ok? <==> s in N5TypeNames
    ensures TensorstoreDtypeToN5(d).Ok? <==> d in InternalN5.ValidN5DataTypes
    ensures N5DtypeToTensorstore(s).Ok? <==> ValidateDataType(Str(s)).Ok?
  {
  }
}
