/**
 * The fields every first-draft driver specification inherits from its base record:
 * context, schema (the alias of `schema_`) and transform, each a record or None.
 */
module DriverSpec {
  import opened Wrappers
  import opened Json

  const BaseDriverFields: set<string> := {"context", "schema", "transform"}

  /**
   * Each base field that is given is None or a dictionary: the Context, Schema and
   * IndexTransform records are built from dictionaries, and nothing else validates as one.
   */
  predicate BaseFieldsShaped(d: map<string, Json>)
  {
    forall k :: k in d && k in BaseDriverFields ==> d[k].Null? || d[k].Obj?
  }

  /** The first base field, in declaration order, that is neither None nor a dictionary. */
  function FirstMisshapedBaseField(d: map<string, Json>): (r: Option<string>)
    ensures r.None? <==> BaseFieldsShaped(d)
    ensures r.Some? ==> r.value in BaseDriverFields && r.value in d && !(d[r.value].Null? || d[r.value].Obj?)
  {
    if "context" in d && !(d["context"].Null? || d["context"].Obj?) then Some("context")
    else if "schema" in d && !(d["schema"].Null? || d["schema"].Obj?) then Some("schema")
    else if "transform" in d && !(d["transform"].Null? || d["transform"].Obj?) then Some("transform")
    else None
  }

  /** The base fields a dictionary gives, kept apart from a record's own fields and extras. */
  function BaseFieldValues(d: map<string, Json>): (r: map<string, Json>)
    ensures r.Keys == d.Keys * BaseDriverFields
    ensures forall k :: k in r ==> r[k] == d[k]
  {
    map k | k in d && k in BaseDriverFields :: d[k]
  }
}
