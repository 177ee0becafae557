/**
 * The high-level validator: a basic structural validation (supplied as a parameter), then,
 * in strict mode, cross-field checks over the plain dictionary, then an optional check by
 * the TensorStore library (also a parameter). Errors of the validation family pass
 * through; any other failure is wrapped with the original dictionary attached.
 */
module Validators {
  import opened Wrappers
  import opened Json
  import opened Errors

  /** An exception raised during validation: one of the family, or any other (by its text). */
  datatype Failure = FamilyFailure(error: ValidationError) | OtherFailure(text: string)

  /** The data types the N5 driver supports in a schema. */
  const N5SchemaTypes: set<string> :=
    {"uint8", "uint16", "uint32", "uint64", "int8", "int16", "int32", "int64", "float32", "float64"}

  /** The drivers whose specifications must carry a truthy kvstore. */
  const KvStoreDrivers: set<string> := {"zarr", "zarr3", "n5"}

  /** Values Python can hash, so that a set-membership test on them does not raise. */
  predicate Hashable(v: Json) { !v.Arr? && !v.Obj? }

  /** `len(v)`, defined for strings, lists and dictionaries; None where Python raises TypeError. */
  function Len(v: Json): (r: Option<nat>)
    ensures r.Some? <==> v.Str? || v.Arr? || v.Obj?
  {
    match v
    case Str(s) => Some(|s|)
    case Arr(items) => Some(|items|)
    case Obj(fields) => Some(|fields.Keys|)
    case _ => None
  }

  /** The dtype part of the schema check: only for the "n5" driver and a truthy dtype. */
  function N5DtypeCheck(dtype: Json, driver: Json, str: Json -> string): (r: Outcome<Failure>)
    ensures r.Fail? <==> driver == Str("n5") && Truthy(dtype) && !(dtype.Str? && dtype.s in N5SchemaTypes)
    ensures r.Fail? && Hashable(dtype) ==>
      r.error.FamilyFailure? && r.error.error.errorClass == DriverClass
      && r.error.error.driver == Some("n5") && r.error.error.fieldPath == Some("schema.dtype")
  {
    if Truthy(dtype) && driver == Str("n5") then
      if !Hashable(dtype) then Fail(OtherFailure("unhashable type"))
      else if dtype.Str? && dtype.s in N5SchemaTypes then Pass
      else Fail(FamilyFailure(NewDriverError("N5 driver doesn't support dtype '" + str(dtype) + "'", "n5", Some("schema.dtype"), None)))
    else Pass
  }

  /**
   * The rank part of the schema check: when the domain and the rank are both truthy and the
   * domain's shape is truthy, the shape's length must equal the rank (Python `==`).
   */
  function DomainRankCheck(domain: Json, rank: Json, str: Json -> string): (r: Outcome<Failure>)
    ensures !Truthy(domain) || !Truthy(rank) ==> r == Pass
    ensures domain.Obj? && Truthy(rank) && Get(domain.fields, "shape").Arr? && Truthy(Get(domain.fields, "shape")) ==>
      (r.Fail? <==> !PyEq(Int(|Get(domain.fields, "shape").items|), rank))
    ensures r.Fail? && r.error.FamilyFailure? ==>
      r.error.error.fieldPath == Some("schema") && r.error.error.driver == None
  {
    if Truthy(domain) && Truthy(rank) then
      if !domain.Obj? then Fail(OtherFailure("object has no attribute 'get'"))
      else
        var shape := Get(domain.fields, "shape");
        if !Truthy(shape) then Pass
        else if Len(shape).None? then Fail(OtherFailure("object has no len()"))
        else if !PyEq(Int(Len(shape).value), rank) then
          Fail(FamilyFailure(NewError("Domain shape rank " + str(Int(Len(shape).value)) + " doesn't match schema rank " + str(rank), Some("schema"), None, None)))
        else Pass
    else Pass
  }

  /** `_validate_schema_consistency`: the dtype check, then the rank check. */
  function SchemaCheck(schema: Json, driver: Json, str: Json -> string): (r: Outcome<Failure>)
    ensures schema.Obj? ==>
      r == (if N5DtypeCheck(Get(schema.fields, "dtype"), driver, str).Fail? then N5DtypeCheck(Get(schema.fields, "dtype"), driver, str)
            else DomainRankCheck(Get(schema.fields, "domain"), Get(schema.fields, "rank"), str))
    ensures !schema.Obj? ==> r.Fail? && r.error.OtherFailure?
  {
    if !schema.Obj? then Fail(OtherFailure("object has no attribute 'get'"))
    else
      var dtypeCheck := N5DtypeCheck(Get(schema.fields, "dtype"), driver, str);
      if dtypeCheck.Fail? then dtypeCheck
      else DomainRankCheck(Get(schema.fields, "domain"), Get(schema.fields, "rank"), str)
  }

  /**
   * `_validate_transform_schema_consistency`: when both the transform's input rank and the
   * schema's rank are given (not None), they must be equal.
   */
  function TransformCheck(transform: Json, schema: map<string, Json>, str: Json -> string): (r: Outcome<Failure>)
    ensures transform.Obj? ==>
      (r.Fail? <==> !Get(transform.fields, "input_rank").Null? && !Get(schema, "rank").Null?
                    && !PyEq(Get(transform.fields, "input_rank"), Get(schema, "rank")))
    ensures transform.Obj? && r.Fail? ==>
      r.error.FamilyFailure? && r.error.error.fieldPath == Some("transform") && r.error.error.driver == None
  {
    if !transform.Obj? then Fail(OtherFailure("object has no attribute 'get'"))
    else
      var inputRank := Get(transform.fields, "input_rank");
      var schemaRank := Get(schema, "rank");
      if !inputRank.Null? && !schemaRank.Null? && !PyEq(inputRank, schemaRank) then
        Fail(FamilyFailure(NewError("Transform input rank " + str(inputRank) + " doesn't match schema rank " + str(schemaRank), Some("transform"), None, None)))
      else Pass
  }

  /** The display name used in the kvstore messages. */
  function DriverTitle(driver: string): string
  {
    if driver == "zarr" then "Zarr" else if driver == "zarr3" then "Zarr3" else "N5"
  }

  /** The driver-specific part: zarr, zarr3 and n5 need a truthy kvstore; array and others need nothing. */
  function DriverCheck(spec: map<string, Json>): (r: Outcome<Failure>)
    ensures r.Fail? <==> Get(spec, "driver").Str? && Get(spec, "driver").s in KvStoreDrivers && !Truthy(Get(spec, "kvstore"))
    ensures r.Fail? ==>
      r.error.FamilyFailure? && r.error.error.errorClass == DriverClass
      && r.error.error.driver == Some(Get(spec, "driver").s) && r.error.error.fieldPath == Some("kvstore")
  {
    var driver := Get(spec, "driver");
    if driver.Str? && driver.s in KvStoreDrivers && !Truthy(Get(spec, "kvstore")) then
      Fail(FamilyFailure(NewDriverError(DriverTitle(driver.s) + " driver requires kvstore specification", driver.s, Some("kvstore"), None)))
    else Pass
  }

  /**
   * `_validate_cross_field_consistency`: nothing without a truthy driver; otherwise the
   * schema check (for a truthy schema), the transform check (for a truthy transform and
   * schema) and the driver check, stopping at the first failure.
   */
  function CrossFieldCheck(spec: map<string, Json>, str: Json -> string): (r: Outcome<Failure>)
    ensures !Truthy(Get(spec, "driver")) ==> r == Pass
    ensures r.Pass? && Truthy(Get(spec, "driver")) ==> DriverCheck(spec).Pass?
    ensures r.Pass? && Truthy(Get(spec, "driver")) && Truthy(Get(spec, "schema")) ==>
      SchemaCheck(Get(spec, "schema"), Get(spec, "driver"), str).Pass?
    ensures r.Pass? && Truthy(Get(spec, "driver")) && Truthy(Get(spec, "schema")) && Truthy(Get(spec, "transform")) ==>
      TransformCheck(Get(spec, "transform"), Get(spec, "schema").fields, str).Pass?
    ensures r.Fail? ==> Truthy(Get(spec, "driver"))
    ensures Truthy(Get(spec, "driver")) && Truthy(Get(spec, "schema"))
            && SchemaCheck(Get(spec, "schema"), Get(spec, "driver"), str).Fail?
            ==> r == SchemaCheck(Get(spec, "schema"), Get(spec, "driver"), str)
    ensures Truthy(Get(spec, "driver")) && Truthy(Get(spec, "schema"))
            && SchemaCheck(Get(spec, "schema"), Get(spec, "driver"), str).Pass? && Truthy(Get(spec, "transform"))
            && TransformCheck(Get(spec, "transform"), Get(spec, "schema").fields, str).Fail?
            ==> r == TransformCheck(Get(spec, "transform"), Get(spec, "schema").fields, str)
    ensures Truthy(Get(spec, "driver"))
            && (Truthy(Get(spec, "schema")) ==> SchemaCheck(Get(spec, "schema"), Get(spec, "driver"), str).Pass?)
            && (Truthy(Get(spec, "schema")) && Truthy(Get(spec, "transform")) ==>
                  TransformCheck(Get(spec, "transform"), Get(spec, "schema").fields, str).Pass?)
            ==> r == DriverCheck(spec)
  {
    var driver := Get(spec, "driver");
    var schema := Get(spec, "schema");
    var transform := Get(spec, "transform");
    if !Truthy(driver) then Pass
    else if Truthy(schema) && SchemaCheck(schema, driver, str).Fail? then SchemaCheck(schema, driver, str)
    else if Truthy(transform) && Truthy(schema) && TransformCheck(transform, schema.fields, str).Fail? then
      TransformCheck(transform, schema.fields, str)
    else DriverCheck(spec)
  }

  /**
   * The exception handler: an error of the validation family is re-raised unchanged; any
   * other is wrapped as "Validation failed: ..." with the original dictionary as spec data.
   */
  function Wrap(specDict: map<string, Json>, f: Failure): (e: ValidationError)
    ensures f.FamilyFailure? ==> e == f.error
    ensures f.OtherFailure? ==>
      e.specData == Some(specDict) && e.driver == None && e.fieldPath == None
      && e.message == "Validation failed: " + f.text
  {
    match f
    case FamilyFailure(e) => e
    case OtherFailure(t) => NewError("Validation failed: " + t, None, Some(specDict), None)
  }

  /**
   * `validate_spec_dict`. `basic` is the structural validation of the specification
   * dictionary and `library` the validation by the TensorStore library; both are not part
   * of this model.
   */
  function ValidateSpecDict(
    specDict: map<string, Json>, strict: bool, checkTensorstore: bool,
    basic: map<string, Json> -> Result<map<string, Json>, Failure>,
    library: map<string, Json> -> Outcome<Failure>,
    str: Json -> string): (r: Result<map<string, Json>, ValidationError>)
    ensures basic(specDict).Err? ==> r == Err(Wrap(specDict, basic(specDict).error))
    ensures r.Ok? ==> basic(specDict) == Ok(r.value)
    ensures r.Ok? && strict ==> CrossFieldCheck(r.value, str).Pass?
    ensures r.Ok? && checkTensorstore ==> library(r.value).Pass?
    ensures (basic(specDict).Ok? && (strict ==> CrossFieldCheck(basic(specDict).value, str).Pass?)
             && (checkTensorstore ==> library(basic(specDict).value).Pass?)) ==> r == Ok(basic(specDict).value)
  {
    match basic(specDict)
    case Err(f) => Err(Wrap(specDict, f))
    case Ok(validated) =>
      var cross := if strict then CrossFieldCheck(validated, str) else Pass;
      if cross.Fail? then Err(Wrap(specDict, cross.error))
      else
        var lib := if checkTensorstore then library(validated) else Pass;
        if lib.Fail? then Err(Wrap(specDict, lib.error))
        else Ok(validated)
  }

  /** Non-strict mode without the library check is the structural validation alone. */
  lemma NonStrictSkipsCrossField(
    specDict: map<string, Json>,
    basic: map<string, Json> -> Result<map<string, Json>, Failure>,
    library: map<string, Json> -> Outcome<Failure>,
    str: Json -> string)
    ensures ValidateSpecDict(specDict, false, false, basic, library, str)
      == (match basic(specDict) case Ok(v) => Ok(v) case Err(f) => Err(Wrap(specDict, f)))
  {
  }

  /** What `validate_spec` is given: a dictionary, an already parsed specification, or anything else (by its type's text). */
  datatype SpecInput<S> = DictInput(dict: map<string, Json>) | ParsedInput(spec: S) | OtherInput(typeText: string)

  /**
   * `validate_spec`. A dictionary is validated and then parsed by `parse` (whose failure
   * is wrapped as "Failed to parse specification: ..."); a parsed specification is dumped
   * with `dump` and validated when strict or the library check is requested, and is then
   * returned itself; any other input is refused as "Invalid spec type".
   */
  function ValidateSpec<S>(
    input: SpecInput<S>, strict: bool, checkTensorstore: bool,
    basic: map<string, Json> -> Result<map<string, Json>, Failure>,
    library: map<string, Json> -> Outcome<Failure>,
    parse: map<string, Json> -> Result<S, string>,
    dump: S -> map<string, Json>,
    str: Json -> string): (r: Result<S, ValidationError>)
    ensures input.ParsedInput? && r.Ok? ==> r.value == input.spec
    ensures input.ParsedInput? && !strict && !checkTensorstore ==> r == Ok(input.spec)
    ensures input.ParsedInput? ==>
      (r.Ok? <==> ValidateSpecDict(dump(input.spec), strict, checkTensorstore, basic, library, str).Ok? || (!strict && !checkTensorstore))
    ensures input.OtherInput? ==>
      r.Err? && r.error.message == "Invalid spec type: " + input.typeText + ". Must be dict or TensorStoreSpec."
    ensures input.DictInput? ==>
      (r.Ok? <==> ValidateSpecDict(input.dict, strict, checkTensorstore, basic, library, str).Ok?
                  && parse(ValidateSpecDict(input.dict, strict, checkTensorstore, basic, library, str).value).Ok?)
    ensures input.DictInput? ==>
      var v := ValidateSpecDict(input.dict, strict, checkTensorstore, basic, library, str);
      (v.Err? ==> r == Err(v.error))
      && (v.Ok? && parse(v.value).Ok? ==> r == Ok(parse(v.value).value))
      && (v.Ok? && parse(v.value).Err? ==>
            r == Err(NewError("Failed to parse specification: " + parse(v.value).error, None, Some(input.dict), None)))
    ensures input.ParsedInput? && (strict || checkTensorstore) ==>
      var v := ValidateSpecDict(dump(input.spec), strict, checkTensorstore, basic, library, str);
      (v.Err? ==> r == Err(v.error)) && (v.Ok? ==> r == Ok(input.spec))
  {
    match input
    case DictInput(d) =>
      (match ValidateSpecDict(d, strict, checkTensorstore, basic, library, str)
       case Err(e) => Err(e)
       case Ok(validated) =>
         (match parse(validated)
          case Ok(s) => Ok(s)
          case Err(t) => Err(NewError("Failed to parse specification: " + t, None, Some(d), None))))
    case ParsedInput(s) =>
      if strict || checkTensorstore then
        (match ValidateSpecDict(dump(s), strict, checkTensorstore, basic, library, str)
         case Err(e) => Err(e)
         case Ok(_) => Ok(s))
      else Ok(s)
    case OtherInput(t) =>
      ComposeMessageBare("Invalid spec type: " + t + ". Must be dict or TensorStoreSpec.", None, None);
      Err(NewError("Invalid spec type: " + t + ". Must be dict or TensorStoreSpec.", None, None, None))
  }

  /** An "n5" specification whose schema dtype is outside the ten supported types fails at "schema.dtype". */
  lemma N5SchemaDtypeRejected(spec: map<string, Json>, dtype: string, str: Json -> string)
    requires Get(spec, "driver") == Str("n5")
    requires Get(spec, "schema").Obj? && Get(Get(spec, "schema").fields, "dtype") == Str(dtype)
    requires dtype != "" && dtype !in N5SchemaTypes
    ensures CrossFieldCheck(spec, str).Fail?
    ensures CrossFieldCheck(spec, str).error.FamilyFailure?
    ensures CrossFieldCheck(spec, str).error.error.fieldPath == Some("schema.dtype")
    ensures CrossFieldCheck(spec, str).error.error.driver == Some("n5")
  {
    assert Truthy(Get(spec, "schema"));
    assert N5DtypeCheck(Get(Get(spec, "schema").fields, "dtype"), Get(spec, "driver"), str).Fail?;
  }

  /** A zarr, zarr3 or n5 specification without a truthy kvstore (and no schema) fails at "kvstore" with its driver. */
  lemma KvStoreRequired(spec: map<string, Json>, driver: string, str: Json -> string)
    requires Get(spec, "driver") == Str(driver) && driver in KvStoreDrivers
    requires !Truthy(Get(spec, "schema")) && !Truthy(Get(spec, "kvstore"))
    ensures CrossFieldCheck(spec, str).Fail?
    ensures CrossFieldCheck(spec, str).error == FamilyFailure(NewDriverError(DriverTitle(driver) + " driver requires kvstore specification", driver, Some("kvstore"), None))
  {
  }

  /** A two-dimensional domain shape against a schema rank of 3 fails at "schema". */
  lemma DomainRankMismatch(spec: map<string, Json>, str: Json -> string)
    requires Get(spec, "driver") == Str("array")
    requires Get(spec, "schema") == Obj(map["rank" := Int(3), "domain" := Obj(map["shape" := Arr([Int(4), Int(5)])])])
    ensures CrossFieldCheck(spec, str).Fail?
    ensures CrossFieldCheck(spec, str).error.FamilyFailure?
    ensures CrossFieldCheck(spec, str).error.error.fieldPath == Some("schema")
  {
    var schema := Get(spec, "schema").fields;
    assert Get(schema, "dtype") == Null;
    assert Get(Get(schema, "domain").fields, "shape") == Arr([Int(4), Int(5)]);
    assert !PyEq(Int(2), Int(3));
  }
}
