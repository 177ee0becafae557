/**
 * The first-draft in-memory array driver: the rectangularity check on nested lists,
 * the dtype lookup, and the shape read off the first element at each depth.
 */
module Array {
  import opened Wrappers
  import opened Json
  import Types
  import DriverSpec

  datatype ArrayError =
    | EmptyArray
    | EmptySubarray(depth: int)
    | InconsistentNesting(index: nat, depth: int)
    | InconsistentShape(index: nat, depth: int, shape: seq<nat>, expected: seq<nat>)
    | InvalidArrayData
    | DtypeNotAString
    | InvalidDtype(name: string)
    | MissingField(field: string)
    | UnknownFields(names: set<string>)
    | FieldTypeError(field: string)

  /** What `check_rectangular` returns: the shape found and the depth reached. */
  datatype Rect = Rect(shape: seq<nat>, depth: int)

  /**
   * `check_rectangular(arr, depth)`: a non-list is a scalar of shape []; an empty list fails;
   * when the first element is a list every sibling must be a list of the same shape,
   * otherwise the level is a run of scalars and its siblings are not inspected.
   */
  function CheckRectangular(v: Json, depth: int): (r: Result<Rect, ArrayError>)
    ensures r.Ok? ==> r.value.depth == depth + |r.value.shape|
    ensures r.Ok? ==> r.value.shape == GetShape(v)
    ensures r.Ok? ==> forall k :: 0 <= k < |r.value.shape| ==> r.value.shape[k] >= 1
    ensures v.Arr? && |v.items| == 0 ==> r == Err(EmptySubarray(depth))
    decreases v, 1
  {
    if !v.Arr? then Ok(Rect([], depth))
    else if |v.items| == 0 then Err(EmptySubarray(depth))
    else if v.items[0].Arr? then
      match CheckRectangular(v.items[0], depth + 1)
      case Err(e) => Err(e)
      case Ok(first) =>
        match CheckSiblings(v, 1, first, depth)
        case Err(e) => Err(e)
        case Ok(_) => Ok(Rect([|v.items|] + first.shape, first.depth))
    else Ok(Rect([|v.items|], depth + 1))
  }

  /** The loop over elements `i..` of a level whose first element is a list. */
  function CheckSiblings(v: Json, i: nat, first: Rect, depth: int): (r: Result<(), ArrayError>)
    requires v.Arr? && 1 <= i <= |v.items|
    ensures r.Ok? ==> forall j :: i <= j < |v.items| ==>
                        (v.items[j].Arr? && CheckRectangular(v.items[j], depth + 1) == Ok(first))
    ensures r.Err? ==> exists j :: i <= j < |v.items| && !(v.items[j].Arr? && CheckRectangular(v.items[j], depth + 1) == Ok(first))
    decreases v, 0, |v.items| - i
  {
    if i == |v.items| then Ok(())
    else if !v.items[i].Arr? then Err(InconsistentNesting(i, depth))
    else
      match CheckRectangular(v.items[i], depth + 1)
      case Err(e) => Err(e)
      case Ok(elem) =>
        if elem.shape != first.shape || elem.depth != first.depth then
          Err(InconsistentShape(i, depth, elem.shape, first.shape))
        else CheckSiblings(v, i + 1, first, depth)
  }

  /** `get_shape`: the length at each depth, following the first element. */
  function GetShape(v: Json): (r: seq<nat>)
    ensures v.Arr? && |v.items| > 0 ==> |r| >= 1 && r[0] == |v.items|
    ensures !v.Arr? || |v.items| == 0 ==> r == []
  {
    if !v.Arr? || |v.items| == 0 then []
    else if v.items[0].Arr? then [|v.items|] + GetShape(v.items[0])
    else [|v.items|]
  }

  /**
   * A nested list that has exactly the given shape: a scalar for the empty shape,
   * otherwise a list of `shape[0]` elements each of shape `shape[1..]`.
   */
  predicate IsRectangular(v: Json, shape: seq<nat>)
    decreases v
  {
    if shape == [] then !v.Arr?
    else v.Arr? && |v.items| == shape[0] && forall j :: 0 <= j < |v.items| ==> IsRectangular(v.items[j], shape[1..])
  }

  /**
   * What an accepted nested list satisfies: every level but the last is rectangular; at
   * the last level only the first element is known to be a scalar.
   */
  predicate Conforms(v: Json, shape: seq<nat>)
    decreases v
  {
    if shape == [] then !v.Arr?
    else if |shape| == 1 then v.Arr? && |v.items| == shape[0] > 0 && !v.items[0].Arr?
    else v.Arr? && |v.items| == shape[0] > 0 && forall j :: 0 <= j < |v.items| ==> Conforms(v.items[j], shape[1..])
  }

  /** Soundness: an accepted value conforms to the shape the check reports. */
  lemma {:induction false} CheckRectangularSound(v: Json, depth: int)
    requires CheckRectangular(v, depth).Ok?
    ensures Conforms(v, CheckRectangular(v, depth).value.shape)
    decreases v
  {
    if v.Arr? && v.items[0].Arr? {
      var first := CheckRectangular(v.items[0], depth + 1).value;
      var shape := CheckRectangular(v, depth).value.shape;
      assert shape == [|v.items|] + first.shape;
      assert shape[1..] == first.shape;
      forall j | 0 <= j < |v.items|
        ensures Conforms(v.items[j], shape[1..])
      {
        if j == 0 {
          CheckRectangularSound(v.items[0], depth + 1);
        } else {
          assert CheckSiblings(v, 1, first, depth).Ok?;
          CheckRectangularSound(v.items[j], depth + 1);
        }
      }
    }
  }

  /** Completeness: a truly rectangular nested list with positive extents is accepted with its shape. */
  lemma {:induction false} CheckRectangularComplete(v: Json, shape: seq<nat>, depth: int)
    requires IsRectangular(v, shape)
    requires forall k :: 0 <= k < |shape| ==> shape[k] >= 1
    ensures CheckRectangular(v, depth) == Ok(Rect(shape, depth + |shape|))
    decreases v
  {
    if shape != [] {
      if |shape| == 1 {
        assert IsRectangular(v.items[0], shape[1..]);
        assert shape == [|v.items|];
      } else {
        forall j | 0 <= j < |v.items|
          ensures CheckRectangular(v.items[j], depth + 1) == Ok(Rect(shape[1..], depth + |shape|))
        {
          assert IsRectangular(v.items[j], shape[1..]);
          CheckRectangularComplete(v.items[j], shape[1..], depth + 1);
        }
        var first := Rect(shape[1..], depth + |shape|);
        SiblingsComplete(v, 1, first, depth);
        assert shape == [|v.items|] + shape[1..];
      }
    }
  }

  lemma {:induction false} SiblingsComplete(v: Json, i: nat, first: Rect, depth: int)
    requires v.Arr? && 1 <= i <= |v.items|
    requires forall j :: i <= j < |v.items| ==> v.items[j].Arr? && CheckRectangular(v.items[j], depth + 1) == Ok(first)
    ensures CheckSiblings(v, i, first, depth) == Ok(())
    decreases |v.items| - i
  {
    if i < |v.items| {
      SiblingsComplete(v, i + 1, first, depth);
    }
  }

  /** `validate_array_data`: a list must be non-empty and rectangular and is returned unchanged;
   *  any other value is converted by `asList` (numpy's `asarray(v).tolist()`), which may fail. */
  function ValidateArrayData(v: Json, asList: Json -> Option<Json>): (r: Result<Json, ArrayError>)
    ensures v.Arr? ==> (r.Ok? <==> |v.items| > 0 && CheckRectangular(v, 0).Ok?)
    ensures v.Arr? && r.Ok? ==> r.value == v
    ensures v == Arr([]) ==> r == Err(EmptyArray)
    ensures !v.Arr? ==> (r.Ok? <==> asList(v).Some?)
  {
    if v.Arr? then
      if |v.items| == 0 then Err(EmptyArray)
      else
        match CheckRectangular(v, 0)
        case Err(e) => Err(e)
        case Ok(_) => Ok(v)
    else
      match asList(v)
      case None => Err(InvalidArrayData)
      case Some(w) => Ok(w)
  }

  /** `validate_dtype_compatibility` followed by the enum field: a string must name a DataType member. */
  function ValidateDtype(v: Json): (r: Result<Types.DataType, ArrayError>)
    ensures r.Ok? <==> v.Str? && exists d :: Types.DataTypeName(d) == v.s
    ensures r.Ok? ==> Types.DataTypeName(r.value) == v.s
  {
    if !v.Str? then Err(DtypeNotAString)
    else
      Types.ParseDataTypeExact(v.s);
      match Types.ParseDataType(v.s)
      case None => Err(InvalidDtype(v.s))
      case Some(d) => Ok(d)
  }

  /** `get_array_ndim`. */
  function GetArrayNdim(v: Json): (n: nat)
    ensures v.Arr? && |v.items| > 0 ==> n >= 1
  {
    |GetShape(v)|
  }

  /** Accepted nested lists have as many dimensions as the depth the check reaches. */
  lemma NdimIsCheckedDepth(v: Json)
    requires v.Arr? && CheckRectangular(v, 0).Ok?
    ensures GetArrayNdim(v) == CheckRectangular(v, 0).value.depth
  {
  }

  /** A 2x3 list is accepted with shape [2, 3], reaching depth 2. */
  lemma TwoByThreeAccepted()
    ensures CheckRectangular(Arr([Arr([Int(1), Int(2), Int(3)]), Arr([Int(4), Int(5), Int(6)])]), 0)
            == Ok(Rect([2, 3], 2))
  {
    var row1 := Arr([Int(1), Int(2), Int(3)]);
    var row2 := Arr([Int(4), Int(5), Int(6)]);
    var v := Arr([row1, row2]);
    assert CheckRectangular(row1, 1) == Ok(Rect([3], 2));
    assert CheckRectangular(row2, 1) == Ok(Rect([3], 2));
    assert CheckSiblings(v, 1, Rect([3], 2), 0) == Ok(());
    assert [2] + [3] == [2, 3];
  }

  /** Rows of lengths 2 and 3 are rejected. */
  lemma RaggedRejected()
    ensures CheckRectangular(Arr([Arr([Int(1), Int(2)]), Arr([Int(3), Int(4), Int(5)])]), 0).Err?
  {
    var short := Arr([Int(1), Int(2)]);
    var long := Arr([Int(3), Int(4), Int(5)]);
    assert CheckRectangular(short, 1) == Ok(Rect([2], 2));
    assert CheckRectangular(long, 1) == Ok(Rect([3], 2));
    assert CheckSiblings(Arr([short, long]), 1, Rect([2], 2), 0).Err?;
  }

  /** The 2x2x2 example has shape [2, 2, 2]. */
  lemma CubeShape()
    ensures GetShape(Arr([Arr([Arr([Int(1), Int(2)]), Arr([Int(3), Int(4)])]),
                          Arr([Arr([Int(5), Int(6)]), Arr([Int(7), Int(8)])])])) == [2, 2, 2]
  {
    var inner := Arr([Int(1), Int(2)]);
    assert GetShape(inner) == [2];
    var plane := Arr([inner, Arr([Int(3), Int(4)])]);
    assert GetShape(plane) == [2] + [2];
  }

  /** A level whose first element is a scalar is accepted whatever its siblings are. */
  lemma ScalarLevelNotInspected()
    ensures CheckRectangular(Arr([Int(1), Arr([Int(2), Int(3)])]), 0) == Ok(Rect([2], 1))
  {
  }

  /** "int32" names a member; "invalid_type" does not. */
  lemma DtypeExamples()
    ensures ValidateDtype(Str("invalid_type")).Err? && ValidateDtype(Str("int32")) == Ok(Types.Int32)
  {
    Types.ParseDataTypeExact("invalid_type");
  }

  /** An `ArraySpec`: driver fixed to "array", required array and dtype. */
  datatype ArraySpec = ArraySpec(data: Json, dtype: Types.DataType, dataCopyConcurrency: Json)

  const SpecFields: set<string> := {"driver", "array", "dtype", "data_copy_concurrency"} + DriverSpec.BaseDriverFields

  /**
   * A value the `array` field accepts: a non-empty rectangular list, or a value that numpy
   * converts into a list (a scalar converts into a scalar, which `list[Any]` then rejects).
   */
  predicate ArrayDataAccepted(v: Json, asList: Json -> Option<Json>)
  {
    if v.Arr? then |v.items| > 0 && CheckRectangular(v, 0).Ok?
    else asList(v).Some? && asList(v).value.Arr?
  }

  /** The dictionaries `ArraySpec` accepts: known keys only, each holding a value of its field's type. */
  predicate SpecAccepted(d: map<string, Json>, asList: Json -> Option<Json>)
  {
    d.Keys <= SpecFields && DriverSpec.BaseFieldsShaped(d)
    && ("driver" in d ==> d["driver"] == Str("array"))
    && "array" in d && ArrayDataAccepted(d["array"], asList)
    && "dtype" in d && d["dtype"].Str? && (exists t :: Types.DataTypeName(t) == d["dtype"].s)
    && ("data_copy_concurrency" in d ==> d["data_copy_concurrency"].Null? || d["data_copy_concurrency"].Str? || d["data_copy_concurrency"].Obj?)
  }

  /**
   * Building an `ArraySpec` from a dictionary: unknown keys are rejected, a list is kept as
   * given and anything else as numpy converts it, the dtype names a member, and
   * data_copy_concurrency defaults to its resource name.
   */
  function ParseArraySpec(d: map<string, Json>, asList: Json -> Option<Json>): (r: Result<ArraySpec, ArrayError>)
    ensures r.Ok? <==> SpecAccepted(d, asList)
    ensures r.Ok? && d["array"].Arr? ==> r.value.data == d["array"] && CheckRectangular(d["array"], 0).Ok?
    ensures r.Ok? && !d["array"].Arr? ==> Some(r.value.data) == asList(d["array"])
    ensures r.Ok? ==> d["dtype"] == Str(Types.DataTypeName(r.value.dtype))
    ensures r.Ok? && "data_copy_concurrency" in d ==> r.value.dataCopyConcurrency == d["data_copy_concurrency"]
    ensures r.Ok? && "data_copy_concurrency" !in d ==> r.value.dataCopyConcurrency == Str("data_copy_concurrency")
  {
    if !(d.Keys <= SpecFields) then Err(UnknownFields(d.Keys - SpecFields))
    else if DriverSpec.FirstMisshapedBaseField(d).Some? then Err(FieldTypeError(DriverSpec.FirstMisshapedBaseField(d).value))
    else if "driver" in d && d["driver"] != Str("array") then Err(FieldTypeError("driver"))
    else if "array" !in d then Err(MissingField("array"))
    else if "dtype" !in d then Err(MissingField("dtype"))
    else
      match ValidateArrayData(d["array"], asList)
      case Err(e) => Err(e)
      case Ok(data) =>
        if !data.Arr? then Err(FieldTypeError("array"))
        else
          match ValidateDtype(d["dtype"])
          case Err(e) => Err(e)
          case Ok(dtype) =>
            var dcc := if "data_copy_concurrency" in d then d["data_copy_concurrency"] else Str("data_copy_concurrency");
            if !(dcc.Null? || dcc.Str? || dcc.Obj?) then Err(FieldTypeError("data_copy_concurrency"))
            else Ok(ArraySpec(data, dtype, dcc))
  }

  /** The worked example is accepted as given; an empty list and a converted scalar are rejected. */
  lemma SpecExamples(asList: Json -> Option<Json>)
    requires asList(Int(5)) == Some(Int(5))
    ensures ParseArraySpec(map["array" := Arr([Arr([Int(1), Int(2)]), Arr([Int(3), Int(4)])]), "dtype" := Str("int32")], asList)
      == Ok(ArraySpec(Arr([Arr([Int(1), Int(2)]), Arr([Int(3), Int(4)])]), Types.Int32, Str("data_copy_concurrency")))
    ensures ParseArraySpec(map["array" := Arr([]), "dtype" := Str("int32")], asList) == Err(EmptyArray)
    ensures ParseArraySpec(map["array" := Int(5), "dtype" := Str("int32")], asList) == Err(FieldTypeError("array"))
  {
    var row1 := Arr([Int(1), Int(2)]);
    var row2 := Arr([Int(3), Int(4)]);
    assert CheckRectangular(row1, 1) == Ok(Rect([2], 2));
    assert CheckRectangular(row2, 1) == Ok(Rect([2], 2));
    assert CheckSiblings(Arr([row1, row2]), 1, Rect([2], 2), 0) == Ok(());
    DtypeExamples();
  }
}
