/**
 * Merging and comparing specifications on their normalised dictionaries, and building a
 * specification from a dictionary with or without validation. Normalisation itself (parse
 * and dump) is given as a parameter.
 */
module Conversion {
  import opened Wrappers
  import opened Json
  import Errors
  import Validators

  /** The keys whose dictionaries are merged key by key instead of replaced. */
  const NestedKeys: seq<string> := ["schema", "context", "metadata"]

  /** Whether `key` is merged key by key: both sides hold dictionaries under one of the nested keys. */
  predicate MergesNested(base: map<string, Json>, override: map<string, Json>, key: string)
  {
    key in NestedKeys && key in base && key in override && base[key].Obj? && override[key].Obj?
  }

  /**
   * The merged dictionary: every key of either side; the override's value wins, except
   * that two dictionaries under a nested key are merged with the override's entries winning.
   */
  function Merged(base: map<string, Json>, override: map<string, Json>): (r: map<string, Json>)
    ensures r.Keys == base.Keys + override.Keys
  {
    map k | k in base.Keys + override.Keys ::
      if MergesNested(base, override, k) then Obj(base[k].fields + override[k].fields)
      else if k in override then override[k]
      else base[k]
  }

  /** `{**base, **override}` followed by the nested merges, one nested key at a time. */
  method MergeDicts(base: map<string, Json>, override: map<string, Json>) returns (merged: map<string, Json>)
    ensures merged == Merged(base, override)
  {
    merged := base + override;
    var i := 0;
    while i < |NestedKeys|
      invariant 0 <= i <= |NestedKeys|
      invariant merged.Keys == base.Keys + override.Keys
      invariant forall k :: k in merged ==>
        merged[k] == (if MergesNested(base, override, k) && k in NestedKeys[..i] then Obj(base[k].fields + override[k].fields)
                      else if k in override then override[k] else base[k])
    {
      var key := NestedKeys[i];
      if key in base && key in override {
        if base[key].Obj? && override[key].Obj? {
          merged := merged[key := Obj(base[key].fields + override[key].fields)];
        }
      }
      assert NestedKeys[..i + 1] == NestedKeys[..i] + [key];
      i := i + 1;
    }
    assert NestedKeys[..i] == NestedKeys;
  }

  /**
   * Top-level precedence: an override key wins unless both sides hold dictionaries under a
   * nested key; a key only in the base is kept; every other nested value is replaced wholesale.
   */
  lemma MergePrecedence(base: map<string, Json>, override: map<string, Json>, k: string)
    ensures k in override && !MergesNested(base, override, k) ==> Merged(base, override)[k] == override[k]
    ensures k in base && k !in override ==> Merged(base, override)[k] == base[k]
    ensures k in Merged(base, override) <==> k in base || k in override
  {
  }

  /** Under a nested key holding dictionaries on both sides, each inner key follows the same precedence. */
  lemma NestedMergePrecedence(base: map<string, Json>, override: map<string, Json>, k: string, inner: string)
    requires MergesNested(base, override, k)
    ensures Merged(base, override)[k].Obj?
    ensures inner in override[k].fields ==> Merged(base, override)[k].fields[inner] == override[k].fields[inner]
    ensures inner in base[k].fields && inner !in override[k].fields ==> Merged(base, override)[k].fields[inner] == base[k].fields[inner]
    ensures inner in Merged(base, override)[k].fields <==> inner in base[k].fields || inner in override[k].fields
  {
  }

  /** Merging with an empty override, or into an empty base, gives the other side back. */
  lemma MergeIdentity(d: map<string, Json>)
    ensures Merged(d, map[]) == d
    ensures Merged(map[], d) == d
  {
  }

  /** A dictionary without the ignored fields. */
  function WithoutFields(d: map<string, Json>, ignore: set<string>): (r: map<string, Json>)
    ensures r.Keys == d.Keys - ignore
    ensures forall k :: k in r ==> r[k] == d[k]
  {
    map k | k in d && k !in ignore :: d[k]
  }

  /**
   * The comparison on normalised dictionaries: Python `==` once the ignored fields are
   * removed from both, so numbers compare by value at every depth.
   */
  predicate SpecsEqual(d1: map<string, Json>, d2: map<string, Json>, ignore: seq<string>)
  {
    var s := set f | f in ignore;
    PyEqDeep(Obj(WithoutFields(d1, s)), Obj(WithoutFields(d2, s)))
  }

  /** The comparison is reflexive and symmetric. */
  lemma SpecsEqualReflexiveSymmetric(d1: map<string, Json>, d2: map<string, Json>, ignore: seq<string>)
    ensures SpecsEqual(d1, d1, ignore)
    ensures SpecsEqual(d1, d2, ignore) <==> SpecsEqual(d2, d1, ignore)
  {
    var s := set f | f in ignore;
    PyEqDeepReflexive(Obj(WithoutFields(d1, s)));
    PyEqDeepSymmetric(Obj(WithoutFields(d1, s)), Obj(WithoutFields(d2, s)));
    PyEqDeepSymmetric(Obj(WithoutFields(d2, s)), Obj(WithoutFields(d1, s)));
  }

  /** Ignoring a field that neither side has changes nothing; with nothing ignored it is Python `==` of the whole. */
  lemma IgnoringAbsentField(d1: map<string, Json>, d2: map<string, Json>, ignore: seq<string>, f: string)
    requires f !in d1 && f !in d2
    ensures SpecsEqual(d1, d2, ignore + [f]) <==> SpecsEqual(d1, d2, ignore)
    ensures SpecsEqual(d1, d2, []) <==> PyEqDeep(Obj(d1), Obj(d2))
  {
    var s := set g | g in ignore;
    var s' := set g | g in ignore + [f];
    assert WithoutFields(d1, s') == WithoutFields(d1, s);
    assert WithoutFields(d2, s') == WithoutFields(d2, s);
    assert (set g: string | g in []) == {};
    assert WithoutFields(d1, {}) == d1;
    assert WithoutFields(d2, {}) == d2;
  }

  /** Dictionaries with one and the same key compare as their two values compare. */
  lemma SingleKeyCompare(k: string, x: Json, y: Json)
    ensures PyEqDeep(Obj(map[k := x]), Obj(map[k := y])) <==> PyEqDeep(x, y)
  {
    assert NumValue(Obj(map[k := x])).None?;
    assert map[k := x].Keys == map[k := y].Keys == {k};
  }

  /** Two specs that differ only in a nested fill value compare as Python `==` compares the two values. */
  lemma NestedFillValueCompare(x: Json, y: Json)
    ensures SpecsEqual(map["metadata" := Obj(map["fill_value" := x])], map["metadata" := Obj(map["fill_value" := y])], [])
            <==> PyEqDeep(x, y)
  {
    IgnoringAbsentField(map["metadata" := Obj(map["fill_value" := x])], map["metadata" := Obj(map["fill_value" := y])], [], "");
    SingleKeyCompare("metadata", Obj(map["fill_value" := x]), Obj(map["fill_value" := y]));
    SingleKeyCompare("fill_value", x, y);
  }

  /** Nested numbers compare by value: a fill value of 0 equals one of 0.0 and of False, but not of "0". */
  lemma NumbersCompareByValue()
    ensures SpecsEqual(map["metadata" := Obj(map["fill_value" := Int(0)])], map["metadata" := Obj(map["fill_value" := Float(0.0)])], [])
    ensures SpecsEqual(map["metadata" := Obj(map["fill_value" := Int(0)])], map["metadata" := Obj(map["fill_value" := Bool(false)])], [])
    ensures !SpecsEqual(map["metadata" := Obj(map["fill_value" := Int(0)])], map["metadata" := Obj(map["fill_value" := Str("0")])], [])
  {
    NestedFillValueCompare(Int(0), Float(0.0));
    NestedFillValueCompare(Int(0), Bool(false));
    NestedFillValueCompare(Int(0), Str("0"));
  }

  /**
   * `compare_specs`: both arguments are normalised, each ignored field is popped from both
   * dictionaries (a missing one is skipped), and the rest compared.
   */
  method CompareSpecs<X, E>(
    spec1: X, spec2: X, ignoreFields: seq<string>,
    normalize: X -> Result<map<string, Json>, E>) returns (r: Result<bool, E>)
    ensures normalize(spec1).Err? ==> r == Err(normalize(spec1).error)
    ensures normalize(spec1).Ok? && normalize(spec2).Err? ==> r == Err(normalize(spec2).error)
    ensures normalize(spec1).Ok? && normalize(spec2).Ok? ==>
      r == Ok(SpecsEqual(normalize(spec1).value, normalize(spec2).value, ignoreFields))
  {
    var n1 := normalize(spec1);
    if n1.Err? {
      return Err(n1.error);
    }
    var n2 := normalize(spec2);
    if n2.Err? {
      return Err(n2.error);
    }
    var dict1 := n1.value;
    var dict2 := n2.value;
    var i := 0;
    while i < |ignoreFields|
      invariant 0 <= i <= |ignoreFields|
      invariant dict1 == WithoutFields(n1.value, set f | f in ignoreFields[..i])
      invariant dict2 == WithoutFields(n2.value, set f | f in ignoreFields[..i])
    {
      assert ignoreFields[..i + 1] == ignoreFields[..i] + [ignoreFields[i]];
      dict1 := dict1 - {ignoreFields[i]};
      dict2 := dict2 - {ignoreFields[i]};
      i := i + 1;
    }
    assert ignoreFields[..i] == ignoreFields;
    r := Ok(PyEqDeep(Obj(dict1), Obj(dict2)));
  }

  /** Why building a specification failed: the validator's error, or the parser's. */
  datatype BuildError = ValidationFailed(error: Errors.ValidationError) | ParseFailed(text: string)

  /**
   * `spec_from_dict`: with `validate` the dictionary goes through `validate_spec` (in the
   * given strictness, without the library check); without it, straight to the parser.
   */
  function SpecFromDict<S>(
    specDict: map<string, Json>, strict: bool, validate: bool,
    basic: map<string, Json> -> Result<map<string, Json>, Validators.Failure>,
    library: map<string, Json> -> Outcome<Validators.Failure>,
    parse: map<string, Json> -> Result<S, string>,
    dump: S -> map<string, Json>,
    str: Json -> string): (r: Result<S, BuildError>)
    ensures !validate && parse(specDict).Ok? ==> r == Ok(parse(specDict).value)
    ensures !validate && parse(specDict).Err? ==> r == Err(ParseFailed(parse(specDict).error))
    ensures validate ==>
      var v := Validators.ValidateSpec(Validators.DictInput(specDict), strict, false, basic, library, parse, dump, str);
      (v.Ok? ==> r == Ok(v.value)) && (v.Err? ==> r == Err(ValidationFailed(v.error)))
  {
    if validate then
      match Validators.ValidateSpec(Validators.DictInput(specDict), strict, false, basic, library, parse, dump, str)
      case Ok(s) => Ok(s)
      case Err(e) => Err(ValidationFailed(e))
    else
      match parse(specDict)
      case Ok(s) => Ok(s)
      case Err(t) => Err(ParseFailed(t))
  }

  /**
   * `merge_specs`: both arguments are normalised by `normalize`, merged, and the result
   * built by `spec_from_dict` with its defaults: strict, validated.
   */
  method MergeSpecs<X, S>(
    baseSpec: X, overrideSpec: X,
    normalize: X -> Result<map<string, Json>, BuildError>,
    basic: map<string, Json> -> Result<map<string, Json>, Validators.Failure>,
    library: map<string, Json> -> Outcome<Validators.Failure>,
    parse: map<string, Json> -> Result<S, string>,
    dump: S -> map<string, Json>,
    str: Json -> string) returns (r: Result<S, BuildError>)
    ensures normalize(baseSpec).Err? ==> r == Err(normalize(baseSpec).error)
    ensures normalize(baseSpec).Ok? && normalize(overrideSpec).Err? ==> r == Err(normalize(overrideSpec).error)
    ensures normalize(baseSpec).Ok? && normalize(overrideSpec).Ok? ==>
      r == SpecFromDict(Merged(normalize(baseSpec).value, normalize(overrideSpec).value), true, true,
                        basic, library, parse, dump, str)
  {
    var baseDict := normalize(baseSpec);
    if baseDict.Err? {
      return Err(baseDict.error);
    }
    var overrideDict := normalize(overrideSpec);
    if overrideDict.Err? {
      return Err(overrideDict.error);
    }
    var merged := MergeDicts(baseDict.value, overrideDict.value);
    r := SpecFromDict(merged, true, true, basic, library, parse, dump, str);
  }

  /**
   * Without validation the cross-field checks are bypassed: a dictionary the parser accepts
   * is built even when strict validation would refuse it.
   */
  lemma NoValidateBypassesChecks<S>(
    specDict: map<string, Json>,
    basic: map<string, Json> -> Result<map<string, Json>, Validators.Failure>,
    library: map<string, Json> -> Outcome<Validators.Failure>,
    parse: map<string, Json> -> Result<S, string>,
    dump: S -> map<string, Json>,
    str: Json -> string)
    requires basic(specDict) == Ok(specDict)
    requires Validators.CrossFieldCheck(specDict, str).Fail?
    requires parse(specDict).Ok?
    ensures SpecFromDict(specDict, true, false, basic, library, parse, dump, str).Ok?
    ensures SpecFromDict(specDict, true, true, basic, library, parse, dump, str).Err?
  {
  }
}
