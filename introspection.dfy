/**
 * Introspection of specifications: the shape of a nested list, the static table of driver
 * capabilities, the filter that selects the registered drivers meeting a set of
 * requirements, and the summary of a specification (driver, dtype, shape, rank, store).
 */
module Introspection {
  import opened Wrappers
  import opened Json
  import Types
  import Array
  import Validators

  /** `_get_nested_list_shape`: [] for a non-list or an empty list, else its length followed by the first element's shape. */
  function NestedListShape(v: Json): (r: seq<nat>)
  {
    if !v.Arr? || |v.items| == 0 then []
    else [|v.items|] + (if v.items[0].Arr? then NestedListShape(v.items[0]) else [])
  }

  /** The value reached by following first elements `k` times. */
  function FirstDescent(v: Json, k: nat): Json
  {
    if k == 0 || !v.Arr? || |v.items| == 0 then v else FirstDescent(v.items[0], k - 1)
  }

  /**
   * The shape lists, level by level, the lengths of the lists reached by following first
   * elements, and stops at the first level that is not a non-empty list.
   */
  lemma {:induction false} NestedListShapeFollowsFirstElements(v: Json)
    ensures var r := NestedListShape(v);
      (forall i :: 0 <= i < |r| ==> FirstDescent(v, i).Arr? && r[i] == |FirstDescent(v, i).items| > 0)
      && !(FirstDescent(v, |r|).Arr? && |FirstDescent(v, |r|).items| > 0)
  {
    if v.Arr? && |v.items| > 0 {
      var r := NestedListShape(v);
      NestedListShapeFollowsFirstElements(v.items[0]);
      forall i | 0 < i < |r|
        ensures FirstDescent(v, i).Arr? && r[i] == |FirstDescent(v, i).items| > 0
      {
        assert FirstDescent(v, i) == FirstDescent(v.items[0], i - 1);
      }
      assert FirstDescent(v, |r|) == FirstDescent(v.items[0], |r| - 1);
    }
  }

  /** The helper computes the same shape as the array driver's `get_shape`. */
  lemma {:induction false} NestedListShapeIsArrayShape(v: Json)
    ensures NestedListShape(v) == Array.GetShape(v)
  {
    if v.Arr? && |v.items| > 0 && v.items[0].Arr? {
      NestedListShapeIsArrayShape(v.items[0]);
    }
  }

  datatype Capabilities = Capabilities(
    supportedDtypes: seq<string>,
    supportsKvstore: bool,
    supportsCompression: bool,
    supportsChunks: bool,
    metadataFormat: Option<string>,
    description: string)

  /** The starting record: no data types, every flag false, no metadata format. */
  const NoCapabilities := Capabilities([], false, false, false, None, "")

  const ZarrDtypes: seq<string> := [
    "bool", "int8", "int16", "int32", "int64", "uint8", "uint16", "uint32", "uint64",
    "float16", "float32", "float64", "complex64", "complex128"]

  const N5Dtypes: seq<string> := [
    "uint8", "uint16", "uint32", "uint64", "int8", "int16", "int32", "int64", "float32", "float64"]

  const NeuroglancerDtypes: seq<string> := ["uint8", "uint16", "uint32", "uint64", "float32"]

  /** `get_driver_capabilities`: the starting record, updated for the five known drivers. */
  function GetDriverCapabilities(driver: string): (r: Capabilities)
    ensures driver !in {"array", "zarr", "zarr3", "n5", "neuroglancer_precomputed"} ==> r == NoCapabilities
    ensures driver in {"zarr", "zarr3", "n5", "neuroglancer_precomputed"} ==>
      r.supportsKvstore && r.supportsCompression && r.supportsChunks && r.metadataFormat.Some?
  {
    if driver == "array" then
      NoCapabilities.(supportedDtypes := Types.AllDataTypeNames(),
                      description := "In-memory array driver for testing and small datasets")
    else if driver == "zarr" then
      Capabilities(ZarrDtypes, true, true, true, Some("zarr_v2"), "Zarr v2 format driver for chunked, compressed arrays")
    else if driver == "zarr3" then
      Capabilities(ZarrDtypes, true, true, true, Some("zarr_v3"), "Zarr v3 format driver with enhanced features")
    else if driver == "n5" then
      Capabilities(N5Dtypes, true, true, true, Some("n5"), "N5 format driver for scientific computing")
    else if driver == "neuroglancer_precomputed" then
      Capabilities(NeuroglancerDtypes, true, true, true, Some("neuroglancer"), "Neuroglancer Precomputed format for visualization")
    else NoCapabilities
  }

  /**
   * The array driver lists every data type value (25 of them, in declaration order) and
   * supports no store, compression or chunks; n5 lists exactly the ten types the
   * cross-field check allows; neuroglancer_precomputed lists five.
   */
  lemma CapabilityTable()
    ensures var c := GetDriverCapabilities("array");
      c.supportedDtypes == Types.AllDataTypeNames() && |c.supportedDtypes| == 25
      && !c.supportsKvstore && !c.supportsCompression && !c.supportsChunks && c.metadataFormat.None?
    ensures forall d :: d in GetDriverCapabilities("array").supportedDtypes <==> exists t :: Types.DataTypeName(t) == d
    ensures (set s | s in GetDriverCapabilities("n5").supportedDtypes) == Validators.N5SchemaTypes
    ensures |GetDriverCapabilities("n5").supportedDtypes| == 10
    ensures |GetDriverCapabilities("neuroglancer_precomputed").supportedDtypes| == 5
  {
    var names := Types.AllDataTypeNames();
    forall d | d in names
      ensures exists t :: Types.DataTypeName(t) == d
    {
      var i :| 0 <= i < |names| && names[i] == d;
      assert Types.DataTypeName(Types.AllDataTypes[i]) == d;
    }
    forall d | exists t :: Types.DataTypeName(t) == d
      ensures d in names
    {
      var t :| Types.DataTypeName(t) == d;
      Types.AllDataTypesComplete(t);
      var i :| 0 <= i < |Types.AllDataTypes| && Types.AllDataTypes[i] == t;
      assert names[i] == d;
    }
  }

  /** Whether a driver meets the requirements: the dtype (if required), a store and compression (if needed). */
  predicate Compatible(requirements: map<string, Json>, driver: string)
  {
    var caps := GetDriverCapabilities(driver);
    ("dtype" in requirements ==> requirements["dtype"].Str? && requirements["dtype"].s in caps.supportedDtypes)
    && (Truthy(GetOr(requirements, "needs_kvstore", Bool(false))) ==> caps.supportsKvstore)
    && (Truthy(GetOr(requirements, "needs_compression", Bool(false))) ==> caps.supportsCompression)
  }

  /** `requirements.get(key, default)`. */
  function GetOr(d: map<string, Json>, key: string, default: Json): (r: Json)
    ensures key in d ==> r == d[key]
    ensures key !in d ==> r == default
  {
    if key in d then d[key] else default
  }

  /** The registered drivers meeting the requirements, in registration order. */
  function Filter(requirements: map<string, Json>, drivers: seq<string>): seq<string>
  {
    if |drivers| == 0 then []
    else
      var last := drivers[|drivers| - 1];
      Filter(requirements, drivers[..|drivers| - 1]) + (if Compatible(requirements, last) then [last] else [])
  }

  /**
   * `get_compatible_drivers` over the registered drivers (the registry is not part of this
   * model and is given as `registered`): each driver is kept or skipped in turn.
   */
  method GetCompatibleDrivers(requirements: map<string, Json>, registered: seq<string>) returns (compatible: seq<string>)
    ensures compatible == Filter(requirements, registered)
  {
    compatible := [];
    var i := 0;
    while i < |registered|
      invariant 0 <= i <= |registered|
      invariant compatible == Filter(requirements, registered[..i])
    {
      var driver := registered[i];
      var caps := GetDriverCapabilities(driver);
      var keep := true;
      if "dtype" in requirements && !(requirements["dtype"].Str? && requirements["dtype"].s in caps.supportedDtypes) {
        keep := false;
      } else if Truthy(GetOr(requirements, "needs_kvstore", Bool(false))) && !caps.supportsKvstore {
        keep := false;
      } else if Truthy(GetOr(requirements, "needs_compression", Bool(false))) && !caps.supportsCompression {
        keep := false;
      }
      FilterStep(requirements, registered, i);
      if keep {
        compatible := compatible + [driver];
      }
      i := i + 1;
    }
    assert registered[..i] == registered;
  }

  /** One more registered driver: `Filter` keeps it or skips it. */
  lemma FilterStep(requirements: map<string, Json>, drivers: seq<string>, i: nat)
    requires i < |drivers|
    ensures Filter(requirements, drivers[..i + 1])
      == Filter(requirements, drivers[..i]) + (if Compatible(requirements, drivers[i]) then [drivers[i]] else [])
  {
    assert drivers[..i + 1][..i] == drivers[..i];
  }

  /** `a` is obtained from `b` by deleting elements: `idx` maps each position of `a` to its place in `b`, in increasing order. */
  ghost predicate SubsequenceVia(a: seq<string>, b: seq<string>, idx: seq<nat>)
  {
    |idx| == |a|
    && (forall i :: 0 <= i < |idx| ==> idx[i] < |b| && a[i] == b[idx[i]])
    && (forall i, j :: 0 <= i < j < |idx| ==> idx[i] < idx[j])
  }

  /** The result keeps the registration order: it is a subsequence of the registered drivers. */
  lemma {:induction false} FilterIsSubsequence(requirements: map<string, Json>, drivers: seq<string>) returns (idx: seq<nat>)
    ensures SubsequenceVia(Filter(requirements, drivers), drivers, idx)
    decreases |drivers|
  {
    if |drivers| == 0 {
      idx := [];
    } else {
      var n := |drivers| - 1;
      var prefix := drivers[..n];
      var rest := FilterIsSubsequence(requirements, prefix);
      if Compatible(requirements, drivers[n]) {
        idx := rest + [n];
      } else {
        idx := rest;
      }
    }
  }

  /** A driver is in the result exactly when it is registered and meets the requirements. */
  lemma {:induction false} FilterMembership(requirements: map<string, Json>, drivers: seq<string>, d: string)
    ensures d in Filter(requirements, drivers) <==> d in drivers && Compatible(requirements, d)
    decreases |drivers|
  {
    if |drivers| > 0 {
      var n := |drivers| - 1;
      FilterMembership(requirements, drivers[..n], d);
      assert drivers == drivers[..n] + [drivers[n]];
    }
  }

  /** With no requirements every registered driver is kept; an unknown driver meets no dtype requirement. */
  lemma FilterExamples(drivers: seq<string>)
    ensures Filter(map[], drivers) == drivers
    ensures forall t :: !Compatible(map["dtype" := Str(t)], "tiff")
  {
    if |drivers| > 0 {
      FilterExamples(drivers[..|drivers| - 1]);
      assert drivers == drivers[..|drivers| - 1] + [drivers[|drivers| - 1]];
    }
  }

  /** A schema as the specification holds it: a dictionary, or a schema object (its dtype text and domain). */
  datatype SchemaValue =
    | SchemaDict(fields: map<string, Json>)
    | SchemaObject(dtype: Option<string>, domain: Option<DomainView>)

  datatype DomainView = DomainView(shape: Json, rank: Json)

  /**
   * What `get_spec_info` reads from a specification; an absent attribute is None. A store
   * record is given by its dictionary, and the array data by its nested list.
   */
  datatype SpecView = SpecView(
    driver: string,
    driverKind: string,
    schema: Option<SchemaValue>,
    kvstore: Option<Json>,
    data: Option<Json>,
    metadata: Option<Json>)

  datatype SpecInfo = SpecInfo(
    driver: string,
    driverKind: string,
    dtype: Json,
    shape: Json,
    rank: Json,
    hasKvstore: bool,
    storageBackend: Json,
    compression: Json,
    metadata: map<string, Json>)

  /** The shape source for a driver's metadata: zarr3 reads "shape", n5 reads "dimensions". */
  function MetadataShapeKey(driver: string): Option<string>
  {
    if driver == "zarr3" then Some("shape") else if driver == "n5" then Some("dimensions") else None
  }

  /** The shape a non-empty schema dictionary gives: its domain's "shape" when the domain is a non-empty dictionary. */
  function SchemaDictShape(s: map<string, Json>): Json
  {
    var domain := Get(s, "domain");
    if Truthy(domain) && domain.Obj? then Get(domain.fields, "shape") else Null
  }

  /** A schema dictionary whose shape is truthy but has no length: `len` raises. */
  predicate SchemaShapeUnsized(schema: Option<SchemaValue>)
  {
    schema.Some? && schema.value.SchemaDict?
    && Truthy(SchemaDictShape(schema.value.fields)) && Validators.Len(SchemaDictShape(schema.value.fields)).None?
  }

  /** The zarr3 or n5 metadata dictionary that names a shape. */
  predicate MetadataGivesShape(spec: SpecView)
  {
    spec.driver in {"zarr3", "n5"} && spec.metadata.Some? && spec.metadata.value.Obj?
    && MetadataShapeKey(spec.driver).value in spec.metadata.value.fields
  }

  /** The shape the metadata names. */
  function MetadataShape(spec: SpecView): Json
    requires MetadataGivesShape(spec)
  {
    spec.metadata.value.fields[MetadataShapeKey(spec.driver).value]
  }

  /** The driver section replaces the schema's shape: a nested list for "array", or the zarr3/n5 metadata. */
  predicate DriverGivesShape(spec: SpecView)
  {
    (spec.driver == "array" && spec.data.Some? && spec.data.value.Arr?) || MetadataGivesShape(spec)
  }

  /** What the schema contributes to the summary: its dtype, shape and rank. */
  datatype SchemaFacts = SchemaFacts(dtype: Json, shape: Json, rank: Json)

  /**
   * The schema part of `get_spec_info`: a non-empty dictionary gives its dtype and its
   * domain's shape, with the shape's length as the rank; a schema object gives its dtype
   * text and its domain's shape and rank; no schema gives nothing.
   */
  method SummariseSchema(schema: Option<SchemaValue>) returns (r: Result<SchemaFacts, string>)
    ensures r.Err? <==> SchemaShapeUnsized(schema)
    ensures r.Ok? && schema.None? ==> r.value == SchemaFacts(Null, Null, Null)
    ensures r.Ok? && schema.Some? && schema.value.SchemaDict? ==>
      var shape := SchemaDictShape(schema.value.fields);
      r.value.dtype == Get(schema.value.fields, "dtype") && r.value.shape == shape
      && r.value.rank == (if Truthy(shape) then Int(Validators.Len(shape).value) else Null)
    ensures r.Ok? && schema.Some? && schema.value.SchemaObject? ==>
      var t := schema.value.dtype;
      var domain := schema.value.domain;
      r.value.dtype == (if t.Some? && t.value != "" then Str(t.value) else Null)
      && r.value.shape == (if domain.Some? then domain.value.shape else Null)
      && r.value.rank == (if domain.Some? then domain.value.rank else Null)
  {
    var dtype := Null;
    var shape := Null;
    var rank := Null;
    if schema.Some? {
      match schema.value
      case SchemaDict(fields) =>
        if fields != map[] {
          dtype := Get(fields, "dtype");
          var domain := Get(fields, "domain");
          if Truthy(domain) && domain.Obj? {
            shape := Get(domain.fields, "shape");
            if Truthy(shape) {
              if Validators.Len(shape).None? {
                return Err("object has no len()");
              }
              rank := Int(Validators.Len(shape).value);
            }
          }
        }
      case SchemaObject(schemaDtype, domain) =>
        dtype := if schemaDtype.Some? && schemaDtype.value != "" then Str(schemaDtype.value) else Null;
        if domain.Some? {
          shape := domain.value.shape;
          rank := domain.value.rank;
        }
    }
    r := Ok(SchemaFacts(dtype, shape, rank));
  }

  /**
   * `get_spec_info`, reading the schema from the specification's `schema_` field (see
   * `GetSpecInfoAsWritten` for what the source reads). `len` of a value that has none
   * raises, reported as an error. The dtype comes from the schema; the shape and rank from
   * the schema, then (overriding) from the array data for "array" or from the metadata for
   * zarr3 and n5, and whenever the shape comes from a dictionary, a nested list or the
   * metadata the rank is its length.
   */
  method GetSpecInfo(spec: SpecView) returns (r: Result<SpecInfo, string>)
    ensures r.Err? <==> SchemaShapeUnsized(spec.schema) || (MetadataGivesShape(spec) && Validators.Len(MetadataShape(spec)).None?)
    ensures r.Ok? ==> r.value.driver == spec.driver && r.value.driverKind == spec.driverKind
    ensures r.Ok? ==> (r.value.hasKvstore <==> spec.kvstore.Some? && Truthy(spec.kvstore.value))
    ensures r.Ok? && spec.kvstore.Some? && spec.kvstore.value.Obj? && Truthy(spec.kvstore.value) ==>
      r.value.storageBackend == Get(spec.kvstore.value.fields, "driver")
    ensures r.Ok? && spec.schema.None? ==> r.value.dtype == Null
    ensures r.Ok? && spec.schema.Some? && spec.schema.value.SchemaDict? ==>
      r.value.dtype == Get(spec.schema.value.fields, "dtype")
    ensures r.Ok? && spec.schema.Some? && spec.schema.value.SchemaObject? ==>
      var t := spec.schema.value.dtype;
      r.value.dtype == (if t.Some? && t.value != "" then Str(t.value) else Null)
    ensures r.Ok? && !DriverGivesShape(spec) && spec.schema.Some? && spec.schema.value.SchemaDict? ==>
      var shape := SchemaDictShape(spec.schema.value.fields);
      r.value.shape == shape
      && r.value.rank == (if Truthy(shape) then Int(Validators.Len(shape).value) else Null)
    ensures r.Ok? && !DriverGivesShape(spec) && spec.schema.Some? && spec.schema.value.SchemaObject? ==>
      var domain := spec.schema.value.domain;
      r.value.shape == (if domain.Some? then domain.value.shape else Null)
      && r.value.rank == (if domain.Some? then domain.value.rank else Null)
    ensures r.Ok? && !DriverGivesShape(spec) && spec.schema.None? ==> r.value.shape == Null && r.value.rank == Null
    ensures r.Ok? && spec.driver == "array" && spec.data.Some? && spec.data.value.Arr? ==>
      r.value.shape == IntList(NestedListShape(spec.data.value))
      && r.value.rank == Int(|NestedListShape(spec.data.value)|)
    ensures r.Ok? && MetadataGivesShape(spec) ==>
      r.value.shape == MetadataShape(spec) && r.value.rank == Int(Validators.Len(MetadataShape(spec)).value)
    ensures r.Ok? && spec.driver in {"zarr", "zarr3", "n5"} && spec.metadata.Some? && spec.metadata.value.Obj? ==>
      r.value.metadata == spec.metadata.value.fields
      && ("compressor" in spec.metadata.value.fields ==> r.value.compression == spec.metadata.value.fields["compressor"])
      && ("compressor" !in spec.metadata.value.fields && "compression" in spec.metadata.value.fields ==>
            r.value.compression == spec.metadata.value.fields["compression"])
    ensures r.Ok? && spec.driver !in {"zarr", "zarr3", "n5"} ==> r.value.compression == Null && r.value.metadata == map[]
  {
    var facts := SummariseSchema(spec.schema);
    if facts.Err? {
      return Err(facts.error);
    }
    var dtype := facts.value.dtype;
    var shape := facts.value.shape;
    var rank := facts.value.rank;
    var hasKvstore := false;
    var storageBackend := Null;
    var compression := Null;
    var metadata: map<string, Json> := map[];

    if spec.kvstore.Some? && Truthy(spec.kvstore.value) {
      hasKvstore := true;
      storageBackend := if spec.kvstore.value.Obj? then Get(spec.kvstore.value.fields, "driver") else Null;
    }

    if spec.driver == "array" {
      if spec.data.Some? && spec.data.value.Arr? {
        var s := NestedListShape(spec.data.value);
        shape := IntList(s);
        rank := Int(|s|);
      }
    } else if spec.driver in {"zarr", "zarr3", "n5"} {
      if spec.metadata.Some? && Truthy(spec.metadata.value) && spec.metadata.value.Obj? {
        var m := spec.metadata.value.fields;
        metadata := m;
        if "compressor" in m {
          compression := m["compressor"];
        } else if "compression" in m {
          compression := m["compression"];
        }
        if spec.driver == "zarr3" && "shape" in m {
          shape := m["shape"];
          if Validators.Len(shape).None? {
            return Err("object has no len()");
          }
          rank := Int(Validators.Len(shape).value);
        } else if spec.driver == "n5" && "dimensions" in m {
          shape := m["dimensions"];
          if Validators.Len(shape).None? {
            return Err("object has no len()");
          }
          rank := Int(Validators.Len(shape).value);
        }
      }
    }
    r := Ok(SpecInfo(spec.driver, spec.driverKind, dtype, shape, rank, hasKvstore, storageBackend, compression, metadata));
  }

  /**
   * `get_spec_info` as written, on a first-draft specification model. `spec.get_driver_kind()`
   * raises unless the model's class defines it (`definesDriverKind`: among the driver
   * specifications only the Zarr one does). After it, `spec.schema` does not reach the schema:
   * the field is declared as `schema_` with the alias "schema", so the attribute is pydantic's
   * deprecated `BaseModel.schema` classmethod, a bound method that is truthy and not a
   * dictionary, and `schema.dtype` raises.
   */
  method GetSpecInfoAsWritten(spec: SpecView, definesDriverKind: bool) returns (r: Result<SpecInfo, string>)
    ensures r.Err?
    ensures !definesDriverKind ==> r.error == "object has no attribute 'get_driver_kind'"
    ensures definesDriverKind ==> r.error == "'method' object has no attribute 'dtype'"
  {
    if !definesDriverKind {
      return Err("object has no attribute 'get_driver_kind'");
    }
    // `hasattr(spec, "schema") and spec.schema` holds for the bound classmethod, which is not a dict.
    return Err("'method' object has no attribute 'dtype'");
  }

  /**
   * A Zarr specification whose schema has the dtype text "uint8", on a memory store: as
   * written the summary raises, while reading the `schema_` field gives dtype "uint8", no
   * shape and the memory backend.
   */
  method GetSpecInfoFinding() returns (asWritten: Result<SpecInfo, string>, intended: Result<SpecInfo, string>)
    ensures asWritten.Err?
    ensures intended.Ok? && intended.value.dtype == Str("uint8") && intended.value.shape == Null
      && intended.value.storageBackend == Str("memory")
  {
    var spec := SpecView("zarr", "tensorstore", Some(SchemaObject(Some("uint8"), None)),
                         Some(Obj(map["driver" := Str("memory")])), None, None);
    asWritten := GetSpecInfoAsWritten(spec, true);
    assert Truthy(spec.kvstore.value) by {
      assert "driver" in spec.kvstore.value.fields;
    }
    intended := GetSpecInfo(spec);
  }
}
