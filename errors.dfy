/**
 * The validation error family: every error stores its field path, offending data and
 * driver verbatim and shows a message prefixed by "Driver 'd':" and "Field 'f':" when
 * those are given (an empty string counts as not given). The subclasses differ only in
 * how their arguments map onto these three.
 */
module Errors {
  import opened Wrappers
  import opened Json

  /** Which subclass raised the error. */
  datatype ErrorClass = Base | DriverClass | SchemaClass | KvStoreClass | TransformClass | ContextClass

  datatype ValidationError = ValidationError(
    errorClass: ErrorClass,
    message: string,
    fieldPath: Option<string>,
    specData: Option<map<string, Json>>,
    driver: Option<string>)

  /** Python truthiness of an optional string: given and non-empty. */
  predicate Given(s: Option<string>) { s.Some? && s.value != "" }

  /** `" ".join(parts)`. */
  function JoinWithSpace(parts: seq<string>): string
  {
    if |parts| == 0 then ""
    else if |parts| == 1 then parts[0]
    else parts[0] + " " + JoinWithSpace(parts[1..])
  }

  /** The parts list: the driver part if given, the field part if given, then the message. */
  function MessageParts(message: string, fieldPath: Option<string>, driver: Option<string>): (r: seq<string>)
    ensures |r| >= 1 && r[|r| - 1] == message
  {
    (if Given(driver) then ["Driver '" + driver.value + "':"] else [])
    + (if Given(fieldPath) then ["Field '" + fieldPath.value + "':"] else [])
    + [message]
  }

  function ComposeMessage(message: string, fieldPath: Option<string>, driver: Option<string>): string
  {
    JoinWithSpace(MessageParts(message, fieldPath, driver))
  }

  function DriverPrefix(driver: Option<string>): string
  {
    if Given(driver) then "Driver '" + driver.value + "': " else ""
  }

  function FieldPrefix(fieldPath: Option<string>): string
  {
    if Given(fieldPath) then "Field '" + fieldPath.value + "': " else ""
  }

  lemma JoinTwo(a: string, b: string)
    ensures JoinWithSpace([a, b]) == a + " " + b
  {
    assert [a, b][1..] == [b];
  }

  lemma JoinThree(a: string, b: string, c: string)
    ensures JoinWithSpace([a, b, c]) == a + " " + (b + " " + c)
  {
    assert [a, b, c][1..] == [b, c];
    JoinTwo(b, c);
  }

  /** A part followed by the joining space is the prefix form of that part. */
  lemma PartSpace(head: string, v: string, rest: string)
    ensures head + v + "':" + " " + rest == head + v + "': " + rest
  {
    assert "':" + " " == "': ";
    calc {
      head + v + "':" + " " + rest;
      (head + v) + ("':" + " ") + rest;
      head + v + "': " + rest;
    }
  }

  /**
   * The composed message is the driver prefix, then the field prefix, then the message:
   * each prefix is present exactly when its value is given, and the message is never altered.
   */
  lemma {:induction false} ComposeMessageShape(message: string, fieldPath: Option<string>, driver: Option<string>)
    ensures ComposeMessage(message, fieldPath, driver) == DriverPrefix(driver) + FieldPrefix(fieldPath) + message
  {
    var parts := MessageParts(message, fieldPath, driver);
    if Given(driver) && Given(fieldPath) {
      var dp := "Driver '" + driver.value + "':";
      var fp := "Field '" + fieldPath.value + "':";
      assert parts == [dp, fp, message];
      JoinThree(dp, fp, message);
      PartSpace("Field '", fieldPath.value, message);
      PartSpace("Driver '", driver.value, FieldPrefix(fieldPath) + message);
    } else if Given(driver) {
      var dp := "Driver '" + driver.value + "':";
      assert parts == [dp, message];
      JoinTwo(dp, message);
      PartSpace("Driver '", driver.value, message);
    } else if Given(fieldPath) {
      var fp := "Field '" + fieldPath.value + "':";
      assert parts == [fp, message];
      JoinTwo(fp, message);
      PartSpace("Field '", fieldPath.value, message);
    } else {
      assert parts == [message];
    }
  }

  /** Neither a driver nor a field path given (None or empty): the message is shown unchanged. */
  lemma ComposeMessageBare(message: string, fieldPath: Option<string>, driver: Option<string>)
    requires !Given(fieldPath) && !Given(driver)
    ensures ComposeMessage(message, fieldPath, driver) == message
  {
    ComposeMessageShape(message, fieldPath, driver);
  }

  /** `TensorStoreValidationError(message, field_path, spec_data, driver)`. */
  function NewError(message: string, fieldPath: Option<string>, specData: Option<map<string, Json>>, driver: Option<string>): (e: ValidationError)
    ensures e.fieldPath == fieldPath && e.specData == specData && e.driver == driver
    ensures e.message == DriverPrefix(driver) + FieldPrefix(fieldPath) + message
    ensures e.errorClass == Base
  {
    ComposeMessageShape(message, fieldPath, driver);
    ValidationError(Base, ComposeMessage(message, fieldPath, driver), fieldPath, specData, driver)
  }

  /** `DriverValidationError`: the driver is always recorded. */
  function NewDriverError(message: string, driver: string, fieldPath: Option<string>, specData: Option<map<string, Json>>): (e: ValidationError)
    ensures e.driver == Some(driver) && e.fieldPath == fieldPath && e.specData == specData
    ensures e.message == DriverPrefix(Some(driver)) + FieldPrefix(fieldPath) + message
    ensures e.errorClass == DriverClass
  {
    NewError(message, fieldPath, specData, Some(driver)).(errorClass := DriverClass)
  }

  /** `SchemaValidationError`: no driver; the schema data becomes the spec data. */
  function NewSchemaError(message: string, fieldPath: Option<string>, schemaData: Option<map<string, Json>>): (e: ValidationError)
    ensures e.driver == None && e.fieldPath == fieldPath && e.specData == schemaData
    ensures e.message == FieldPrefix(fieldPath) + message
    ensures e.errorClass == SchemaClass
  {
    NewError(message, fieldPath, schemaData, None).(errorClass := SchemaClass)
  }

  /** `KvStoreValidationError`: the store's driver becomes the driver, the store data the spec data. */
  function NewKvStoreError(message: string, kvstoreDriver: Option<string>, fieldPath: Option<string>, kvstoreData: Option<map<string, Json>>): (e: ValidationError)
    ensures e.driver == kvstoreDriver && e.fieldPath == fieldPath && e.specData == kvstoreData
    ensures e.message == DriverPrefix(kvstoreDriver) + FieldPrefix(fieldPath) + message
    ensures e.errorClass == KvStoreClass
  {
    NewError(message, fieldPath, kvstoreData, kvstoreDriver).(errorClass := KvStoreClass)
  }

  /** `TransformValidationError`: no driver; the transform data becomes the spec data. */
  function NewTransformError(message: string, fieldPath: Option<string>, transformData: Option<map<string, Json>>): (e: ValidationError)
    ensures e.driver == None && e.fieldPath == fieldPath && e.specData == transformData
    ensures e.message == FieldPrefix(fieldPath) + message
    ensures e.errorClass == TransformClass
  {
    NewError(message, fieldPath, transformData, None).(errorClass := TransformClass)
  }

  /**
   * `ContextValidationError`: no driver; the message is prefixed by "Context resource 'r': "
   * only when the resource name is given and non-empty.
   */
  function NewContextError(message: string, resourceName: Option<string>, fieldPath: Option<string>, contextData: Option<map<string, Json>>): (e: ValidationError)
    ensures e.driver == None && e.fieldPath == fieldPath && e.specData == contextData
    ensures Given(resourceName) ==> e.message == FieldPrefix(fieldPath) + "Context resource '" + resourceName.value + "': " + message
    ensures !Given(resourceName) ==> e.message == FieldPrefix(fieldPath) + message
    ensures e.errorClass == ContextClass
  {
    var enhanced := if Given(resourceName) then "Context resource '" + resourceName.value + "': " + message else message;
    NewError(enhanced, fieldPath, contextData, None).(errorClass := ContextClass)
  }

  /** A driver error at a field path, and at an empty field path (which is left out of the message). */
  lemma DriverErrorExample()
    ensures NewDriverError("bad", "n5", Some("dtype"), None).message == "Driver 'n5': Field 'dtype': bad"
    ensures NewDriverError("bad", "n5", Some(""), None).message == "Driver 'n5': bad"
  {
  }
}
