/**
 * Enumerations and constrained aliases shared by every specification record:
 * the 25 TensorStore data types, open and read/write modes, physical units,
 * and the driver-name and context-resource-name string constraints.
 */
module Types {
  import opened Wrappers

  /** The TensorStore element types, in declaration order. */
  datatype DataType =
    | Bool | Int4 | Int8 | Int16 | Int32 | Int64
    | UInt8 | UInt16 | UInt32 | UInt64
    | Float8E3M4 | Float8E4M3FN | Float8E4M3FNUZ | Float8E4M3B11FNUZ | Float8E5M2 | Float8E5M2FNUZ
    | Float16 | BFloat16 | Float32 | Float64
    | Complex64 | Complex128
    | String | UString | Json

  /** The enum value of a data type, as it appears in a specification. */
  function DataTypeName(d: DataType): string
  {
    match d
    case Bool => "bool"
    case Int4 => "int4"
    case Int8 => "int8"
    case Int16 => "int16"
    case Int32 => "int32"
    case Int64 => "int64"
    case UInt8 => "uint8"
    case UInt16 => "uint16"
    case UInt32 => "uint32"
    case UInt64 => "uint64"
    case Float8E3M4 => "float8_e3m4"
    case Float8E4M3FN => "float8_e4m3fn"
    case Float8E4M3FNUZ => "float8_e4m3fnuz"
    case Float8E4M3B11FNUZ => "float8_e4m3b11fnuz"
    case Float8E5M2 => "float8_e5m2"
    case Float8E5M2FNUZ => "float8_e5m2fnuz"
    case Float16 => "float16"
    case BFloat16 => "bfloat16"
    case Float32 => "float32"
    case Float64 => "float64"
    case Complex64 => "complex64"
    case Complex128 => "complex128"
    case String => "string"
    case UString => "ustring"
    case Json => "json"
  }

  /** Every member, in declaration order. */
  const AllDataTypes: seq<DataType> := [
    Bool, Int4, Int8, Int16, Int32, Int64,
    UInt8, UInt16, UInt32, UInt64,
    Float8E3M4, Float8E4M3FN, Float8E4M3FNUZ, Float8E4M3B11FNUZ, Float8E5M2, Float8E5M2FNUZ,
    Float16, BFloat16, Float32, Float64,
    Complex64, Complex128,
    String, UString, Json]

  /** The values of all members, in declaration order (`[d.value for d in DataType]`). */
  function AllDataTypeNames(): (r: seq<string>)
    ensures |r| == |AllDataTypes|
    ensures forall i :: 0 <= i < |r| ==> r[i] == DataTypeName(AllDataTypes[i])
  {
    seq(|AllDataTypes|, i requires 0 <= i < |AllDataTypes| => DataTypeName(AllDataTypes[i]))
  }

  /** `DataType(s)`: look a member up by its value; None where Python raises ValueError. */
  function ParseDataType(s: string): (r: Option<DataType>)
    ensures r.Some? ==> DataTypeName(r.value) == s
  {
    var integral := ParseIntegralType(s);
    if integral.Some? then integral
    else
      var floating := ParseFloatingType(s);
      if floating.Some? then floating else ParseOtherType(s)
  }

  /** The boolean and integer members. */
  function ParseIntegralType(s: string): (r: Option<DataType>)
    ensures r.Some? ==> DataTypeName(r.value) == s
  {
    if s == "bool" then Some(Bool)
    else if s == "int4" then Some(Int4)
    else if s == "int8" then Some(Int8)
    else if s == "int16" then Some(Int16)
    else if s == "int32" then Some(Int32)
    else if s == "int64" then Some(Int64)
    else if s == "uint8" then Some(UInt8)
    else if s == "uint16" then Some(UInt16)
    else if s == "uint32" then Some(UInt32)
    else if s == "uint64" then Some(UInt64)
    else None
  }

  /** The floating-point members. */
  function ParseFloatingType(s: string): (r: Option<DataType>)
    ensures r.Some? ==> DataTypeName(r.value) == s
  {
    if s == "float8_e3m4" then Some(Float8E3M4)
    else if s == "float8_e4m3fn" then Some(Float8E4M3FN)
    else if s == "float8_e4m3fnuz" then Some(Float8E4M3FNUZ)
    else if s == "float8_e4m3b11fnuz" then Some(Float8E4M3B11FNUZ)
    else if s == "float8_e5m2" then Some(Float8E5M2)
    else if s == "float8_e5m2fnuz" then Some(Float8E5M2FNUZ)
    else if s == "float16" then Some(Float16)
    else if s == "bfloat16" then Some(BFloat16)
    else if s == "float32" then Some(Float32)
    else if s == "float64" then Some(Float64)
    else None
  }

  /** The complex, string and json members. */
  function ParseOtherType(s: string): (r: Option<DataType>)
    ensures r.Some? ==> DataTypeName(r.value) == s
  {
    if s == "complex64" then Some(Complex64)
    else if s == "complex128" then Some(Complex128)
    else if s == "string" then Some(String)
    else if s == "ustring" then Some(UString)
    else if s == "json" then Some(Json)
    else None
  }

  /** Member-to-value-to-member round trip. */
  lemma DataTypeRoundTrip(d: DataType)
    ensures ParseDataType(DataTypeName(d)) == Some(d)
  {
    match d
    case Bool =>
    case Int4 =>
    case Int8 =>
    case Int16 =>
    case Int32 =>
    case Int64 =>
    case UInt8 =>
    case UInt16 =>
    case UInt32 =>
    case UInt64 =>
    case Float8E3M4 =>
    case Float8E4M3FN =>
    case Float8E4M3FNUZ =>
    case Float8E4M3B11FNUZ =>
    case Float8E5M2 =>
    case Float8E5M2FNUZ =>
    case Float16 =>
    case BFloat16 =>
    case Float32 =>
    case Float64 =>
    case Complex64 =>
    case Complex128 =>
    case String =>
    case UString =>
    case Json =>
  }

  /** The enum is closed: a string is accepted iff it is the value of some member. */
  lemma ParseDataTypeExact(s: string)
    ensures ParseDataType(s).Some? <==> exists d :: DataTypeName(d) == s
  {
    if d :| DataTypeName(d) == s {
      DataTypeRoundTrip(d);
    }
  }

  /** Distinct members have distinct values, and the member list holds each member once. */
  lemma DataTypeNamesInjective(d1: DataType, d2: DataType)
    ensures DataTypeName(d1) == DataTypeName(d2) ==> d1 == d2
  {
    if DataTypeName(d1) == DataTypeName(d2) {
      DataTypeRoundTrip(d1);
      DataTypeRoundTrip(d2);
    }
  }

  lemma AllDataTypesComplete(d: DataType)
    ensures d in AllDataTypes
    ensures |AllDataTypes| == 25
  {
  }

  datatype OpenMode = Open | Create | DeleteExisting | AssumeMetadata | AssumeCachedMetadata

  function OpenModeName(m: OpenMode): string
  {
    match m
    case Open => "open"
    case Create => "create"
    case DeleteExisting => "delete_existing"
    case AssumeMetadata => "assume_metadata"
    case AssumeCachedMetadata => "assume_cached_metadata"
  }

  function ParseOpenMode(s: string): (r: Option<OpenMode>)
    ensures r.Some? ==> OpenModeName(r.value) == s
  {
    if s == "open" then Some(Open)
    else if s == "create" then Some(Create)
    else if s == "delete_existing" then Some(DeleteExisting)
    else if s == "assume_metadata" then Some(AssumeMetadata)
    else if s == "assume_cached_metadata" then Some(AssumeCachedMetadata)
    else None
  }

  /** OpenMode has exactly five values, each accepted back as its member. */
  lemma OpenModeRoundTrip(m: OpenMode)
    ensures ParseOpenMode(OpenModeName(m)) == Some(m)
    ensures OpenModeName(m) in {"open", "create", "delete_existing", "assume_metadata", "assume_cached_metadata"}
  {
    match m
    case Open =>
    case Create =>
    case DeleteExisting =>
    case AssumeMetadata =>
    case AssumeCachedMetadata =>
  }

  datatype ReadWriteMode = Read | Write | ReadWrite

  function ReadWriteModeName(m: ReadWriteMode): string
  {
    match m
    case Read => "read"
    case Write => "write"
    case ReadWrite => "read_write"
  }

  function ParseReadWriteMode(s: string): (r: Option<ReadWriteMode>)
    ensures r.Some? ==> ReadWriteModeName(r.value) == s
  {
    if s == "read" then Some(Read)
    else if s == "write" then Some(Write)
    else if s == "read_write" then Some(ReadWrite)
    else None
  }

  /** ReadWriteMode has exactly three values, each accepted back as its member. */
  lemma ReadWriteModeRoundTrip(m: ReadWriteMode)
    ensures ParseReadWriteMode(ReadWriteModeName(m)) == Some(m)
    ensures ReadWriteModeName(m) in {"read", "write", "read_write"}
  {
    match m
    case Read =>
    case Write =>
    case ReadWrite =>
  }

  /**
   * A physical unit: a multiplier and a base-unit name. Python floats are modelled
   * by reals; rendering a float as text is a parameter (`renderFloat`).
   */
  datatype Unit = Unit(multiplier: real, baseUnit: string)

  /** Defaults: multiplier 1.0, empty base unit. */
  const DefaultUnit := Unit(1.0, "")

  /** `Unit.__str__`. */
  function UnitText(u: Unit, renderFloat: real -> string): string
  {
    if u.baseUnit == "" then (if u.multiplier != 1.0 then renderFloat(u.multiplier) else "")
    else if u.multiplier == 1.0 then u.baseUnit
    else renderFloat(u.multiplier) + u.baseUnit
  }

  /**
   * The text is empty exactly for the default unit (given that a rendered float is never
   * empty), it ends with the base unit, and the multiplier is rendered exactly when it is not 1.
   */
  lemma UnitTextShape(u: Unit, renderFloat: real -> string)
    requires forall m :: renderFloat(m) != ""
    ensures UnitText(u, renderFloat) == "" <==> u == DefaultUnit
    ensures u.multiplier == 1.0 ==> UnitText(u, renderFloat) == u.baseUnit
    ensures u.multiplier != 1.0 ==> UnitText(u, renderFloat) == renderFloat(u.multiplier) + u.baseUnit
  {
    if u.baseUnit != "" && u.multiplier != 1.0 {
      assert |UnitText(u, renderFloat)| >= |u.baseUnit| > 0;
    }
  }

  predicate IsAsciiLetter(c: char) { 'a' <= c <= 'z' || 'A' <= c <= 'Z' }
  predicate IsAsciiDigit(c: char) { '0' <= c <= '9' }

  /**
   * DriverName: `^[a-zA-Z][a-zA-Z0-9_]*$` under pydantic's regex engine, where `$`
   * matches only at the very end of the string.
   */
  predicate IsDriverName(s: string)
  {
    |s| >= 1 && IsAsciiLetter(s[0])
    && forall i :: 1 <= i < |s| ==> IsAsciiLetter(s[i]) || IsAsciiDigit(s[i]) || s[i] == '_'
  }

  /** ContextResourceName: any string of length at least 1. */
  predicate IsContextResourceName(s: string) { |s| >= 1 }

  /** The driver identifiers used by the modelled drivers and key-value stores all satisfy DriverName. */
  lemma KnownDriversAreDriverNames()
    ensures forall s :: s in ["array", "zarr", "zarr3", "n5", "neuroglancer_precomputed", "file", "memory", "s3"] ==> IsDriverName(s)
    ensures !IsDriverName("") && !IsDriverName("3d") && !IsDriverName("zarr\n")
  {
    assert !IsAsciiLetter('3');
    assert !IsAsciiLetter('\n') && !IsAsciiDigit('\n');
    assert "zarr\n"[4] == '\n';
  }
}
