/**
 * The Neuroglancer Precomputed driver: a non-negative scale index, optional free-form
 * metadata maps, and the stripped effective path it shares with the first-draft N5 driver.
 */
module Neuroglancer {
  import opened Wrappers
  import opened Json
  import PathJoin
  import DriverSpec

  datatype NeuroglancerError =
    | MissingField(field: string)
    | FieldTypeError(field: string)
    | ScaleIndexNegative(index: int)
    | UnknownFields(names: set<string>)

  datatype NeuroglancerSpec = NeuroglancerSpec(
    kvstore: map<string, Json>,
    path: string,
    scaleIndex: Option<int>,
    multiscaleMetadata: Option<map<string, Json>>,
    scaleMetadata: Option<map<string, Json>>)

  const Driver := "neuroglancer_precomputed"

  const SpecFields: set<string> :=
    {"driver", "kvstore", "path", "scale_index", "multiscale_metadata", "scale_metadata"} + DriverSpec.BaseDriverFields

  /** `dict[str, Any] | None` under `key`: missing or None gives None, a dictionary is kept. */
  function OptionalMap(d: map<string, Json>, key: string): (r: Result<Option<map<string, Json>>, NeuroglancerError>)
    ensures r.Ok? <==> key !in d || d[key].Null? || d[key].Obj?
    ensures r.Ok? ==> (r.value.None? <==> key !in d || d[key].Null?)
    ensures r.Ok? && r.value.Some? ==> d[key] == Obj(r.value.value)
  {
    if key !in d || d[key].Null? then Ok(None)
    else if d[key].Obj? then Ok(Some(d[key].fields))
    else Err(FieldTypeError(key))
  }

  /** The dictionaries the spec accepts: known keys only, each holding a value of its field's type. */
  predicate SpecAccepted(d: map<string, Json>)
  {
    d.Keys <= SpecFields && DriverSpec.BaseFieldsShaped(d)
    && ("driver" in d ==> d["driver"] == Str(Driver))
    && "kvstore" in d && d["kvstore"].Obj?
    && ("path" in d ==> d["path"].Str?)
    && ("scale_index" in d ==> d["scale_index"].Null? || (IsPyInt(d["scale_index"]) && PyIntValue(d["scale_index"]) >= 0))
    && ("multiscale_metadata" in d ==> d["multiscale_metadata"].Null? || d["multiscale_metadata"].Obj?)
    && ("scale_metadata" in d ==> d["scale_metadata"].Null? || d["scale_metadata"].Obj?)
  }

  /**
   * Building the spec from a dictionary: unknown keys are rejected, the driver literal, a
   * required kvstore, a path defaulting to "", a scale index that is at least 0 when given,
   * and two optional maps.
   */
  function ParseNeuroglancerSpec(d: map<string, Json>): (r: Result<NeuroglancerSpec, NeuroglancerError>)
    ensures r.Ok? <==> SpecAccepted(d)
    ensures r.Ok? ==> r.value.kvstore == d["kvstore"].fields
    ensures r.Ok? ==> r.value.path == (if "path" in d then d["path"].s else "")
    ensures r.Ok? ==> (r.value.scaleIndex.None? <==> "scale_index" !in d || d["scale_index"].Null?)
    ensures r.Ok? && r.value.scaleIndex.Some? ==> r.value.scaleIndex.value == PyIntValue(d["scale_index"]) >= 0
    ensures r.Ok? ==> (r.value.multiscaleMetadata.None? <==> "multiscale_metadata" !in d || d["multiscale_metadata"].Null?)
                      && (r.value.multiscaleMetadata.Some? ==> d["multiscale_metadata"] == Obj(r.value.multiscaleMetadata.value))
    ensures r.Ok? ==> (r.value.scaleMetadata.None? <==> "scale_metadata" !in d || d["scale_metadata"].Null?)
                      && (r.value.scaleMetadata.Some? ==> d["scale_metadata"] == Obj(r.value.scaleMetadata.value))
  {
    if !(d.Keys <= SpecFields) then Err(UnknownFields(d.Keys - SpecFields))
    else if DriverSpec.FirstMisshapedBaseField(d).Some? then Err(FieldTypeError(DriverSpec.FirstMisshapedBaseField(d).value))
    else if "driver" in d && d["driver"] != Str(Driver) then Err(FieldTypeError("driver"))
    else if "kvstore" !in d then Err(MissingField("kvstore"))
    else if !d["kvstore"].Obj? then Err(FieldTypeError("kvstore"))
    else if "path" in d && !d["path"].Str? then Err(FieldTypeError("path"))
    else
      var scale := Get(d, "scale_index");
      if !(scale.Null? || IsPyInt(scale)) then Err(FieldTypeError("scale_index"))
      else if IsPyInt(scale) && PyIntValue(scale) < 0 then Err(ScaleIndexNegative(PyIntValue(scale)))
      else
        match OptionalMap(d, "multiscale_metadata")
        case Err(e) => Err(e)
        case Ok(multiscale) =>
          match OptionalMap(d, "scale_metadata")
          case Err(e) => Err(e)
          case Ok(scaleMeta) =>
            Ok(NeuroglancerSpec(
              d["kvstore"].fields,
              if "path" in d then d["path"].s else "",
              if scale.Null? then None else Some(PyIntValue(scale)),
              multiscale, scaleMeta))
  }

  /** An unknown key and a negative scale index are both rejected; the worked example is accepted. */
  lemma SpecExamples(kv: map<string, Json>)
    ensures ParseNeuroglancerSpec(map["kvstore" := Obj(kv), "scale" := Int(0)]) == Err(UnknownFields({"scale"}))
    ensures ParseNeuroglancerSpec(map["kvstore" := Obj(kv), "scale_index" := Int(-1)]).Err?
    ensures ParseNeuroglancerSpec(map["driver" := Str(Driver), "kvstore" := Obj(kv), "scale_index" := Int(0)])
      == Ok(NeuroglancerSpec(kv, "", Some(0), None, None))
  {
    var d := map["kvstore" := Obj(kv), "scale" := Int(0)];
    assert d.Keys - SpecFields == {"scale"};
  }

  /** `get_effective_path`: the same stripped join as the first-draft N5 driver. */
  function EffectivePath(spec: NeuroglancerSpec, strOf: Json -> string): string
  {
    PathJoin.StripEffectivePath(spec.kvstore, spec.path, strOf)
  }

  /** The worked example store "/data/precomputed/" with an empty driver path gives the store path. */
  lemma EffectivePathStoreOnly(strOf: Json -> string)
    requires forall s :: strOf(Str(s)) == s
    ensures var kv := map["driver" := Str("file"), "path" := Str("/data/precomputed/")];
      EffectivePath(NeuroglancerSpec(kv, "", Some(0), None, None), strOf) == "/data/precomputed/"
  {
    var kv := map["driver" := Str("file"), "path" := Str("/data/precomputed/")];
    PathJoin.StripEffectivePathCases(kv, "", strOf);
  }
  /** A store without a path gives the driver path. */
  lemma EffectivePathDriverOnly(strOf: Json -> string)
    requires forall s :: strOf(Str(s)) == s
    ensures EffectivePath(NeuroglancerSpec(map["driver" := Str("memory")], "scale0", None, None, None), strOf) == "scale0"
  {
    PathJoin.StripEffectivePathCases(map["driver" := Str("memory")], "scale0", strOf);
  }
  /** A store path ending in one slash and a driver path starting with one are joined with a single slash. */
  lemma EffectivePathOneSeamSlash(kv: map<string, Json>, a: string, b: string, strOf: Json -> string)
    requires forall s :: strOf(Str(s)) == s
    requires a != "" && a[|a| - 1] != '/' && b != "" && b[0] != '/'
    requires "path" in kv && kv["path"] == Str(a + "/")
    ensures EffectivePath(NeuroglancerSpec(kv, "/" + b, Some(0), None, None), strOf) == a + "/" + b
  {
    assert PathJoin.Slashes(1) == "/";
    PathJoin.StripEffectivePathCases(kv, "/" + b, strOf);
    PathJoin.StripJoinIgnoresSeamSlashes(a, b, 1, 1);
    PathJoin.JoinsAgreeWithoutSeamSlashes(a, b);
  }

  /** The worked example store "/data/precomputed/" and "/scale0" are joined with one slash. */
  lemma EffectivePathJoined(strOf: Json -> string)
    requires forall s :: strOf(Str(s)) == s
    ensures var kv := map["driver" := Str("file"), "path" := Str("/data/precomputed/")];
      EffectivePath(NeuroglancerSpec(kv, "/scale0", Some(0), None, None), strOf) == "/data/precomputed/scale0"
  {
    var kv := map["driver" := Str("file"), "path" := Str("/data/precomputed/")];
    var a, b := "/data/precomputed", "scale0";
    ExampleSeam(a, b);
    EffectivePathOneSeamSlash(kv, a, b, strOf);
  }

  /** The worked example's two halves around the seam. */
  lemma ExampleSeam(a: string, b: string)
    requires a == "/data/precomputed" && b == "scale0"
    ensures a + "/" == "/data/precomputed/" && "/" + b == "/scale0" && a + "/" + b == "/data/precomputed/scale0"
    ensures a[|a| - 1] == 'd' && b[0] == 's'
  {
  }
}
