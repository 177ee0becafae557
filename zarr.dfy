/**
 * The first-draft Zarr v2 driver: chunk validation and metadata defaults, the kvstore
 * and path validators, the effective path (direct concatenation at a slashed seam), and
 * the metadata defaults merged with the user's metadata.
 */
module Zarr {
  import opened Wrappers
  import opened Json
  import PathJoin
  import DriverSpec

  datatype ZarrError =
    | ChunksNotAList
    | ChunkNotPositive(index: nat)
    | KvStoreWithoutDriver
    | PathNotAString
    | MissingField(field: string)
    | UnknownFields(names: set<string>)
    | FieldTypeError(field: string)
    | KvStorePathNotAString

  /**
   * `validate_chunks`: None is kept, a non-list is rejected, and the first entry that is
   * not a positive int is reported by its index.
   */
  function ValidateChunks(v: Json): (r: Result<Option<seq<int>>, ZarrError>)
    ensures v.Null? ==> r == Ok(None)
    ensures !v.Null? && !v.Arr? ==> r == Err(ChunksNotAList)
    ensures v.Arr? ==> (r.Ok? <==> forall i :: 0 <= i < |v.items| ==> IsPositiveInt(v.items[i]))
    ensures v.Arr? && r.Ok? ==> r.value.Some? && |r.value.value| == |v.items|
                                && forall i :: 0 <= i < |v.items| ==> r.value.value[i] == PyIntValue(v.items[i]) > 0
    ensures v.Arr? && r.Err? ==> r.error.ChunkNotPositive? && r.error.index < |v.items|
                                 && !IsPositiveInt(v.items[r.error.index])
                                 && forall j :: 0 <= j < r.error.index ==> IsPositiveInt(v.items[j])
  {
    if v.Null? then Ok(None)
    else if !v.Arr? then Err(ChunksNotAList)
    else match FirstNonPositive(v.items)
      case Some(i) => Err(ChunkNotPositive(i))
      case None => Ok(Some(IntValues(v.items)))
  }

  /**
   * The Zarr v2 metadata record; `fieldsSet` records which declared fields were given
   * explicitly, `base` holds the inherited base fields that were given, `extra` the rest.
   */
  datatype ZarrMetadata = ZarrMetadata(
    chunks: Option<seq<int>>,
    compressor: Json,
    filters: Json,
    fillValue: Json,
    order: string,
    zarrFormat: int,
    dimensionSeparator: string,
    base: map<string, Json>,
    extra: map<string, Json>,
    fieldsSet: set<string>)

  const MetadataFields: set<string> :=
    {"chunks", "compressor", "filters", "fill_value", "order", "zarr_format", "dimension_separator"}

  /** The three metadata defaults. */
  const MetadataDefaults: map<string, Json> :=
    map["zarr_format" := Int(2), "order" := Str("C"), "dimension_separator" := Str(".")]

  predicate IsScalar(v: Json) { !v.Arr? && !v.Obj? }
  predicate IsObjectList(v: Json) { v.Arr? && forall i :: 0 <= i < |v.items| ==> v.items[i].Obj? }

  /** The dictionaries `ZarrMetadata` accepts, field by field. */
  predicate MetadataAccepted(d: map<string, Json>)
  {
    DriverSpec.BaseFieldsShaped(d)
    && ("chunks" in d ==> d["chunks"].Null? || IsPositiveIntList(d["chunks"]))
    && ("compressor" in d ==> d["compressor"].Null? || d["compressor"].Obj?)
    && ("filters" in d ==> d["filters"].Null? || IsObjectList(d["filters"]))
    && ("fill_value" in d ==> IsScalar(d["fill_value"]))
    && ("order" in d ==> d["order"] == Str("C") || d["order"] == Str("F"))
    && ("zarr_format" in d ==> d["zarr_format"] == Int(2))
    && ("dimension_separator" in d ==> d["dimension_separator"].Str?)
  }

  /** The keys that are neither declared metadata fields nor inherited base fields. */
  function ExtraFields(d: map<string, Json>): (r: map<string, Json>)
    ensures r.Keys == d.Keys - MetadataFields - DriverSpec.BaseDriverFields
    ensures forall k :: k in r ==> r[k] == d[k]
  {
    map k | k in d && k !in MetadataFields && k !in DriverSpec.BaseDriverFields :: d[k]
  }

  /**
   * Building a `ZarrMetadata` from a dictionary: every declared field is optional, order is
   * "C" or "F" (default "C"), zarr_format is 2, dimension_separator defaults to ".", the base
   * fields are None or dictionaries, and unknown keys are kept.
   */
  function ParseZarrMetadata(d: map<string, Json>): (r: Result<ZarrMetadata, ZarrError>)
    ensures r.Ok? <==> MetadataAccepted(d)
    ensures r.Ok? ==> r.value.order in {"C", "F"} && r.value.zarrFormat == 2
    ensures r.Ok? ==> (r.value.chunks.None? <==> "chunks" !in d || d["chunks"].Null?)
    ensures r.Ok? && r.value.chunks.Some? ==>
      IsIntListOf(d["chunks"], r.value.chunks.value) && forall i :: 0 <= i < |r.value.chunks.value| ==> r.value.chunks.value[i] > 0
    ensures r.Ok? ==> r.value.compressor == Get(d, "compressor") && r.value.filters == Get(d, "filters")
                      && r.value.fillValue == Get(d, "fill_value")
    ensures r.Ok? && "order" in d ==> d["order"] == Str(r.value.order)
    ensures r.Ok? && "order" !in d ==> r.value.order == "C"
    ensures r.Ok? && "dimension_separator" in d ==> d["dimension_separator"] == Str(r.value.dimensionSeparator)
    ensures r.Ok? && "dimension_separator" !in d ==> r.value.dimensionSeparator == "."
    ensures r.Ok? ==> r.value.fieldsSet == d.Keys * MetadataFields
    ensures r.Ok? ==> r.value.base == DriverSpec.BaseFieldValues(d) && r.value.extra == ExtraFields(d)
  {
    var chunks := if "chunks" in d then ValidateChunks(d["chunks"]) else Ok(None);
    if DriverSpec.FirstMisshapedBaseField(d).Some? then Err(FieldTypeError(DriverSpec.FirstMisshapedBaseField(d).value))
    else if chunks.Err? then Err(chunks.error)
    else if "compressor" in d && !(d["compressor"].Null? || d["compressor"].Obj?) then Err(FieldTypeError("compressor"))
    else if "filters" in d && !(d["filters"].Null? || IsObjectList(d["filters"])) then Err(FieldTypeError("filters"))
    else if "fill_value" in d && !IsScalar(d["fill_value"]) then Err(FieldTypeError("fill_value"))
    else if "order" in d && d["order"] != Str("C") && d["order"] != Str("F") then Err(FieldTypeError("order"))
    else if "zarr_format" in d && d["zarr_format"] != Int(2) then Err(FieldTypeError("zarr_format"))
    else if "dimension_separator" in d && !d["dimension_separator"].Str? then Err(FieldTypeError("dimension_separator"))
    else
      Ok(ZarrMetadata(
        chunks.value,
        Get(d, "compressor"),
        Get(d, "filters"),
        Get(d, "fill_value"),
        if "order" in d then d["order"].s else "C",
        2,
        if "dimension_separator" in d then d["dimension_separator"].s else ".",
        DriverSpec.BaseFieldValues(d),
        ExtraFields(d),
        d.Keys * MetadataFields))
  }

  /** The value a declared field holds, as `model_dump` writes it. */
  function FieldValue(m: ZarrMetadata, k: string): Json
  {
    if k == "chunks" then (if m.chunks.Some? then Arr(seq(|m.chunks.value|, i requires 0 <= i < |m.chunks.value| => Int(m.chunks.value[i]))) else Null)
    else if k == "compressor" then m.compressor
    else if k == "filters" then m.filters
    else if k == "fill_value" then m.fillValue
    else if k == "order" then Str(m.order)
    else if k == "zarr_format" then Int(m.zarrFormat)
    else Str(m.dimensionSeparator)
  }

  /**
   * `model_dump(exclude_unset=True)`: the explicitly set declared fields, the base fields
   * that were given, and every extra key.
   */
  function DumpSet(m: ZarrMetadata): (r: map<string, Json>)
    ensures r.Keys == (m.fieldsSet * MetadataFields) + m.base.Keys + m.extra.Keys
  {
    (map k | k in m.fieldsSet * MetadataFields :: FieldValue(m, k)) + m.base + m.extra
  }

  /** The metadata a `ZarrSpec` holds: none, a plain dictionary, or a `ZarrMetadata` object. */
  datatype MetadataValue = NoMetadata | MetadataDict(fields: map<string, Json>) | MetadataObject(meta: ZarrMetadata)

  datatype ZarrSpec = ZarrSpec(
    kvstore: map<string, Json>,
    path: string,
    metadata: MetadataValue,
    recheckCachedData: Option<bool>,
    recheckCachedMetadata: Option<bool>)

  /** `validate_kvstore`: a dictionary must name a driver; anything else passes unchanged. */
  function ValidateKvStore(v: Json): (r: Result<Json, ZarrError>)
    ensures r.Ok? <==> !(v.Obj? && "driver" !in v.fields)
    ensures r.Ok? ==> r.value == v
  {
    if v.Obj? && "driver" !in v.fields then Err(KvStoreWithoutDriver) else Ok(v)
  }

  /** `validate_path`: a string, returned unchanged. */
  function ValidatePath(v: Json): (r: Result<string, ZarrError>)
    ensures r.Ok? <==> v.Str?
    ensures r.Ok? ==> r.value == v.s
  {
    if v.Str? then Ok(v.s) else Err(PathNotAString)
  }

  const SpecFields: set<string> :=
    {"driver", "kvstore", "path", "metadata", "recheck_cached_data", "recheck_cached_metadata"}
    + DriverSpec.BaseDriverFields

  /** A `bool | None` field: missing or None gives None; a lax bool gives its value. */
  function OptionalBool(d: map<string, Json>, key: string): (r: Result<Option<bool>, ZarrError>)
    ensures r.Ok? <==> key !in d || d[key].Null? || IsLaxBool(d[key])
    ensures r.Ok? ==> (r.value.None? <==> key !in d || d[key].Null?)
    ensures r.Ok? && r.value.Some? ==> r.value.value == LaxBoolValue(d[key])
  {
    if key !in d || d[key].Null? then Ok(None)
    else if IsLaxBool(d[key]) then Ok(Some(LaxBoolValue(d[key])))
    else Err(FieldTypeError(key))
  }

  /** The dictionaries `ZarrSpec` accepts: known keys only, each holding a value of its field's type. */
  predicate SpecAccepted(d: map<string, Json>)
  {
    d.Keys <= SpecFields && DriverSpec.BaseFieldsShaped(d)
    && ("driver" in d ==> d["driver"] == Str("zarr"))
    && "kvstore" in d && d["kvstore"].Obj? && "driver" in d["kvstore"].fields
    && ("path" in d ==> d["path"].Str?)
    && ("metadata" in d ==> d["metadata"].Null? || d["metadata"].Obj?)
    && ("recheck_cached_data" in d ==> d["recheck_cached_data"].Null? || IsLaxBool(d["recheck_cached_data"]))
    && ("recheck_cached_metadata" in d ==> d["recheck_cached_metadata"].Null? || IsLaxBool(d["recheck_cached_metadata"]))
  }

  /**
   * Building a `ZarrSpec` from a dictionary: unknown keys are rejected, the kvstore is
   * required and must be a dictionary naming a driver, the path is a string defaulting to "",
   * and a metadata dictionary is kept as a dictionary (a plain dict matches `JsonObject`
   * exactly, which pydantic's smart union prefers to building a `ZarrMetadata`).
   */
  function ParseZarrSpec(d: map<string, Json>): (r: Result<ZarrSpec, ZarrError>)
    ensures r.Ok? <==> SpecAccepted(d)
    ensures r.Ok? ==> r.value.kvstore == d["kvstore"].fields
    ensures r.Ok? && "path" in d ==> r.value.path == d["path"].s
    ensures r.Ok? && "path" !in d ==> r.value.path == ""
    ensures r.Ok? && "metadata" in d && d["metadata"].Obj? ==> r.value.metadata == MetadataDict(d["metadata"].fields)
    ensures r.Ok? && ("metadata" !in d || d["metadata"].Null?) ==> r.value.metadata == NoMetadata
    ensures r.Ok? ==> (r.value.recheckCachedData.None? <==> "recheck_cached_data" !in d || d["recheck_cached_data"].Null?)
                      && (r.value.recheckCachedData.Some? ==> r.value.recheckCachedData.value == LaxBoolValue(d["recheck_cached_data"]))
    ensures r.Ok? ==> (r.value.recheckCachedMetadata.None? <==> "recheck_cached_metadata" !in d || d["recheck_cached_metadata"].Null?)
                      && (r.value.recheckCachedMetadata.Some? ==> r.value.recheckCachedMetadata.value == LaxBoolValue(d["recheck_cached_metadata"]))
  {
    if !(d.Keys <= SpecFields) then Err(UnknownFields(d.Keys - SpecFields))
    else if DriverSpec.FirstMisshapedBaseField(d).Some? then Err(FieldTypeError(DriverSpec.FirstMisshapedBaseField(d).value))
    else if "driver" in d && d["driver"] != Str("zarr") then Err(FieldTypeError("driver"))
    else if "kvstore" !in d then Err(MissingField("kvstore"))
    else
      match ValidateKvStore(d["kvstore"])
      case Err(e) => Err(e)
      case Ok(kv) =>
        if !kv.Obj? then Err(FieldTypeError("kvstore"))
        else
          match (if "path" in d then ValidatePath(d["path"]) else Ok(""))
          case Err(e) => Err(e)
          case Ok(path) =>
            var meta := Get(d, "metadata");
            if !(meta.Null? || meta.Obj?) then Err(FieldTypeError("metadata"))
            else
              match OptionalBool(d, "recheck_cached_data")
              case Err(e) => Err(e)
              case Ok(rcd) =>
                match OptionalBool(d, "recheck_cached_metadata")
                case Err(e) => Err(e)
                case Ok(rcm) =>
                  Ok(ZarrSpec(kv.fields, path, if meta.Obj? then MetadataDict(meta.fields) else NoMetadata, rcd, rcm))
  }

  /**
   * `get_effective_path`: a falsy store path gives the spec path and an empty spec path gives
   * the store path as it is; otherwise the two are concatenated, directly when either has a
   * slash at the seam. A non-string store path has no `endswith`: that case is an error.
   */
  function EffectivePath(spec: ZarrSpec): (r: Result<Json, ZarrError>)
    ensures var kv := PathJoin.KvStorePath(spec.kvstore);
      (!Truthy(kv) ==> r == Ok(Str(spec.path)))
      && (Truthy(kv) && spec.path == "" ==> r == Ok(kv))
      && (Truthy(kv) && spec.path != "" ==> (r.Ok? <==> kv.Str?))
      && (kv.Str? && kv.s != "" && spec.path != "" ==> r == Ok(Str(PathJoin.ConcatJoin(kv.s, spec.path))))
  {
    var kvPath := PathJoin.KvStorePath(spec.kvstore);
    if !Truthy(kvPath) then Ok(Str(spec.path))
    else if spec.path == "" then Ok(kvPath)
    else if !kvPath.Str? then Err(KvStorePathNotAString)
    else Ok(Str(PathJoin.ConcatJoin(kvPath.s, spec.path)))
  }

  /** Python truthiness of the metadata field: None is falsy, a dict when non-empty, an object always. */
  predicate MetadataTruthy(m: MetadataValue)
  {
    match m
    case NoMetadata => false
    case MetadataDict(fields) => fields != map[]
    case MetadataObject(_) => true
  }

  /** The entries the metadata contributes to the defaults. */
  function MetadataOverrides(m: MetadataValue): map<string, Json>
  {
    match m
    case NoMetadata => map[]
    case MetadataDict(fields) => fields
    case MetadataObject(meta) => DumpSet(meta)
  }

  /**
   * `get_zarr_metadata_defaults`: the three defaults, then updated in place with the
   * metadata's entries when the metadata is truthy. Every key of the metadata wins; every
   * default it does not mention is kept.
   */
  method GetZarrMetadataDefaults(spec: ZarrSpec) returns (defaults: map<string, Json>)
    ensures defaults.Keys == MetadataDefaults.Keys + MetadataOverrides(spec.metadata).Keys
    ensures forall k :: k in MetadataOverrides(spec.metadata) ==> defaults[k] == MetadataOverrides(spec.metadata)[k]
    ensures forall k :: k in MetadataDefaults && k !in MetadataOverrides(spec.metadata) ==> defaults[k] == MetadataDefaults[k]
  {
    defaults := map["zarr_format" := Int(2), "order" := Str("C"), "dimension_separator" := Str(".")];
    if MetadataTruthy(spec.metadata) {
      match spec.metadata {
        case MetadataDict(fields) =>
          defaults := defaults + fields;
        case MetadataObject(meta) =>
          defaults := defaults + DumpSet(meta);
      }
    }
  }

  /**
   * Dumping parsed metadata with `exclude_unset` gives back exactly the keys the user
   * wrote, with the same values for every key except `chunks` (whose bools become ints).
   */
  lemma DumpSetRoundTrip(d: map<string, Json>)
    requires ParseZarrMetadata(d).Ok?
    ensures DumpSet(ParseZarrMetadata(d).value).Keys == d.Keys
    ensures forall k :: k in d && k != "chunks" ==> DumpSet(ParseZarrMetadata(d).value)[k] == d[k]
  {
    var m := ParseZarrMetadata(d).value;
    assert (d.Keys * MetadataFields) + (d.Keys * DriverSpec.BaseDriverFields)
           + (d.Keys - MetadataFields - DriverSpec.BaseDriverFields) == d.Keys;
    forall k | k in d && k != "chunks"
      ensures DumpSet(m)[k] == d[k]
    {
      DumpSetEntry(d, m, k);
    }
  }

  /** One key of the round trip: a declared field, a base field or an extra dumps back to its value. */
  lemma DumpSetEntry(d: map<string, Json>, m: ZarrMetadata, k: string)
    requires ParseZarrMetadata(d) == Ok(m)
    requires k in d && k != "chunks"
    ensures k in DumpSet(m) && DumpSet(m)[k] == d[k]
  {
    if k in MetadataFields {
      assert k !in m.extra && k !in m.base;
      assert DumpSet(m)[k] == FieldValue(m, k);
    } else if k in DriverSpec.BaseDriverFields {
      assert k !in m.extra && k in m.base;
    }
  }

  /**
   * The Zarr effective path agrees with the N5 and Neuroglancer one when neither side has a
   * slash at the seam, and differs when both do (the Zarr join keeps a double slash).
   */
  lemma EffectivePathComparedWithStripJoin(spec: ZarrSpec, strOf: Json -> string)
    requires forall s :: strOf(Str(s)) == s
    requires "path" in spec.kvstore && spec.kvstore["path"].Str? && spec.kvstore["path"].s != "" && spec.path != ""
    ensures var p := spec.kvstore["path"].s;
      (p[|p| - 1] != '/' && spec.path[0] != '/' ==>
        EffectivePath(spec) == Ok(Str(PathJoin.StripEffectivePath(spec.kvstore, spec.path, strOf))))
      && (p[|p| - 1] == '/' && spec.path[0] == '/' ==>
        EffectivePath(spec) != Ok(Str(PathJoin.StripEffectivePath(spec.kvstore, spec.path, strOf))))
  {
    var p := spec.kvstore["path"].s;
    PathJoin.StripEffectivePathCases(spec.kvstore, spec.path, strOf);
    if p[|p| - 1] != '/' && spec.path[0] != '/' {
      PathJoin.JoinsAgreeWithoutSeamSlashes(p, spec.path);
    }
    if p[|p| - 1] == '/' && spec.path[0] == '/' {
      PathJoin.ConcatJoinKeepsDoubleSlash(p, spec.path);
    }
  }

  /** `get_driver_kind` of `ZarrMetadata` and of `ZarrSpec`. */
  const MetadataDriverKind := "metadata"
  const SpecDriverKind := "tensorstore"
}
