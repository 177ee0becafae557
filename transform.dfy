/**
 * Index domains and index transforms: dimension sizes, rank inference across the
 * optional per-dimension lists with fail-fast length checks, bounds-versus-shape
 * consistency, and output index maps.
 */
module Transform {
  import opened Wrappers
  import opened Json

  datatype TransformError =
    | SizeNotInteger
    | SizeNotPositive
    | SizeInconsistent(size: int, inclusiveMin: int, exclusiveMax: int)
    | ShapeNotAList
    | ShapeEntryNotComparable(index: nat)
    | ShapeEntryNotPositive(index: nat)
    | ShapeEntryNotInteger(index: nat)
    | LengthMismatch(field: DomainField, length: nat, rank: nat)
    | BoundsMismatch(dimension: nat, size: int, inclusiveMin: int, exclusiveMax: int)
    | BothSources
    | NoSource
    | ZeroStride
    | InputShapeLength
    | InputLabelsLength
    | OutputLength
    | InputDimensionOutOfRange(output: nat, inputDimension: int, inputRank: int)

  // ---------------------------------------------------------------- DimensionSpec

  /** Python's `int(x)` on a float: truncation toward zero. */
  function TruncateTowardZero(f: real): (n: int)
    ensures f >= 0.0 ==> n as real <= f < n as real + 1.0
    ensures f < 0.0 ==> n as real - 1.0 < f <= n as real
  {
    if f >= 0.0 then f.Floor else -((-f).Floor)
  }

  /**
   * The `size` field validator: None stays None, an int (or bool) is kept, a float is
   * truncated, a string goes through `int()` (`intOfString`), anything else cannot be
   * converted; the converted value must be positive.
   */
  function ValidateSize(v: Json, intOfString: string -> Option<int>): (r: Result<Option<int>, TransformError>)
    ensures r == Ok(None) <==> v.Null?
    ensures r.Ok? && r.value.Some? ==> r.value.value > 0
    ensures IsPyInt(v) ==> r == (if PyIntValue(v) > 0 then Ok(Some(PyIntValue(v))) else Err(SizeNotPositive))
    ensures v.Arr? || v.Obj? ==> r == Err(SizeNotInteger)
    ensures v.Str? ==> (r == Err(SizeNotInteger) <==> intOfString(v.s).None?)
  {
    var converted: Option<int> :=
      match v
      case Null => None
      case Bool(_) => Some(PyIntValue(v))
      case Int(i) => Some(i)
      case Float(f) => Some(TruncateTowardZero(f))
      case Str(s) => intOfString(s)
      case Arr(_) => None
      case Obj(_) => None;
    if v.Null? then Ok(None)
    else if converted.None? then Err(SizeNotInteger)
    else if converted.value <= 0 then Err(SizeNotPositive)
    else Ok(Some(converted.value))
  }

  datatype DimensionSpec = DimensionSpec(
    inclusiveMin: Option<int>,
    exclusiveMax: Option<int>,
    size: Option<int>,
    dimensionLabel: Option<string>)

  /** `DimensionSpec.model_post_init`: with all three bounds given, size must equal max - min. */
  function CheckDimension(d: DimensionSpec): (r: Outcome<TransformError>)
    ensures r == Pass <==>
      (d.inclusiveMin.Some? && d.exclusiveMax.Some? && d.size.Some? ==>
         d.size.value == d.exclusiveMax.value - d.inclusiveMin.value)
    ensures r.Fail? ==> r.error.SizeInconsistent?
  {
    if d.inclusiveMin.Some? && d.exclusiveMax.Some? && d.size.Some?
       && d.exclusiveMax.value - d.inclusiveMin.value != d.size.value
    then Fail(SizeInconsistent(d.size.value, d.inclusiveMin.value, d.exclusiveMax.value))
    else Pass
  }

  /** Building a DimensionSpec: validate `size`, then run the post-init bounds check. */
  function MakeDimension(inclusiveMin: Option<int>, exclusiveMax: Option<int>, size: Json, dimensionLabel: Option<string>,
                         intOfString: string -> Option<int>): (r: Result<DimensionSpec, TransformError>)
    ensures r.Ok? ==> r.value.inclusiveMin == inclusiveMin && r.value.exclusiveMax == exclusiveMax && r.value.dimensionLabel == dimensionLabel
    ensures r.Ok? ==> ValidateSize(size, intOfString) == Ok(r.value.size)
    ensures r.Ok? && r.value.size.Some? ==> r.value.size.value > 0
    ensures r.Ok? && inclusiveMin.Some? && exclusiveMax.Some? && r.value.size.Some? ==>
      r.value.size.value == exclusiveMax.value - inclusiveMin.value
  {
    match ValidateSize(size, intOfString)
    case Err(e) => Err(e)
    case Ok(s) =>
      var d := DimensionSpec(inclusiveMin, exclusiveMax, s, dimensionLabel);
      match CheckDimension(d)
      case Fail(e) => Err(e)
      case Pass => Ok(d)
  }

  // ---------------------------------------------------------------- IndexDomain shape

  /**
   * The `shape` field validator, followed by pydantic's `list[int]` check: the value must be a
   * list; scanning in order, an entry that cannot be compared with 0 raises, an entry <= 0
   * is rejected naming its index; afterwards every entry must be an integer (a float only if
   * it is integral).
   */
  function ValidateShape(v: Json): (r: Result<Option<seq<int>>, TransformError>)
    ensures r == Ok(None) <==> v.Null?
    ensures !v.Null? && !v.Arr? ==> r == Err(ShapeNotAList)
    ensures r.Ok? && r.value.Some? ==> v.Arr? && |r.value.value| == |v.items|
    ensures r.Ok? && r.value.Some? ==> forall i :: 0 <= i < |r.value.value| ==> r.value.value[i] > 0
    ensures r.Err? && r.error.ShapeEntryNotPositive? ==>
      v.Arr? && r.error.index < |v.items| && NumValue(v.items[r.error.index]).Some?
      && NumValue(v.items[r.error.index]).value <= 0.0
  {
    if v.Null? then Ok(None)
    else if !v.Arr? then Err(ShapeNotAList)
    else
      match ScanShape(v.items, 0)
      case Fail(e) => Err(e)
      case Pass =>
        match ShapeInts(v.items, 0)
        case Err(e) => Err(e)
        case Ok(s) => Ok(Some(s))
  }

  /** The validator's loop: the first entry (from `i` on) that is not comparable or not positive. */
  function ScanShape(items: seq<Json>, i: nat): (r: Outcome<TransformError>)
    requires i <= |items|
    decreases |items| - i
    ensures r == Pass <==> forall k :: i <= k < |items| ==> NumValue(items[k]).Some? && NumValue(items[k]).value > 0.0
    ensures r.Fail? ==> (r.error.ShapeEntryNotPositive? || r.error.ShapeEntryNotComparable?)
    ensures r.Fail? && r.error.ShapeEntryNotPositive? ==>
      i <= r.error.index < |items| && NumValue(items[r.error.index]).Some? && NumValue(items[r.error.index]).value <= 0.0
  {
    if i == |items| then Pass
    else if NumValue(items[i]).None? then Fail(ShapeEntryNotComparable(i))
    else if NumValue(items[i]).value <= 0.0 then Fail(ShapeEntryNotPositive(i))
    else ScanShape(items, i + 1)
  }

  /** Pydantic's `list[int]` conversion: ints and bools are kept, integral floats converted. */
  function ShapeInts(items: seq<Json>, i: nat): (r: Result<seq<int>, TransformError>)
    requires i <= |items|
    requires forall k :: i <= k < |items| ==> NumValue(items[k]).Some? && NumValue(items[k]).value > 0.0
    decreases |items| - i
    ensures r.Err? ==> r.error.ShapeEntryNotInteger?
    ensures r.Ok? ==> |r.value| == |items| - i
    ensures r.Ok? ==> forall k :: 0 <= k < |r.value| ==> r.value[k] as real == NumValue(items[i + k]).value
    ensures r.Ok? ==> forall k :: 0 <= k < |r.value| ==> r.value[k] > 0
  {
    if i == |items| then Ok([])
    else
      var n := NumValue(items[i]).value;
      if n != n.Floor as real then Err(ShapeEntryNotInteger(i))
      else
        match ShapeInts(items, i + 1)
        case Err(e) => Err(e)
        case Ok(rest) => Ok([n.Floor] + rest)
  }

  // ---------------------------------------------------------------- IndexDomain

  datatype DomainField = ShapeField | InclusiveMinField | ExclusiveMaxField | LabelsField | ImplicitField

  /** The order in which the post-init check visits the fields. */
  const DomainFields: seq<DomainField> := [ShapeField, InclusiveMinField, ExclusiveMaxField, LabelsField, ImplicitField]

  datatype IndexDomain = IndexDomain(
    shape: Option<seq<int>>,
    inclusiveMin: Option<seq<int>>,
    exclusiveMax: Option<seq<int>>,
    labels: Option<seq<Option<string>>>,
    implicit: Option<seq<bool>>)

  /** The length of a field, or None when it is not set. */
  function FieldLength(d: IndexDomain, f: DomainField): Option<nat>
  {
    match f
    case ShapeField => if d.shape.Some? then Some(|d.shape.value|) else None
    case InclusiveMinField => if d.inclusiveMin.Some? then Some(|d.inclusiveMin.value|) else None
    case ExclusiveMaxField => if d.exclusiveMax.Some? then Some(|d.exclusiveMax.value|) else None
    case LabelsField => if d.labels.Some? then Some(|d.labels.value|) else None
    case ImplicitField => if d.implicit.Some? then Some(|d.implicit.value|) else None
  }

  /** The `rank` property: the length of the first field that is set, in field order. */
  function Rank(d: IndexDomain): Option<nat>
  {
    if d.shape.Some? then Some(|d.shape.value|)
    else if d.inclusiveMin.Some? then Some(|d.inclusiveMin.value|)
    else if d.exclusiveMax.Some? then Some(|d.exclusiveMax.value|)
    else if d.labels.Some? then Some(|d.labels.value|)
    else if d.implicit.Some? then Some(|d.implicit.value|)
    else None
  }

  /** The rank the post-init check has inferred before visiting field `k`: the first length set among fields `0..k`. */
  function RankBefore(d: IndexDomain, k: nat): Option<nat>
    requires k <= |DomainFields|
  {
    if k == 0 then None
    else if RankBefore(d, k - 1).Some? then RankBefore(d, k - 1)
    else FieldLength(d, DomainFields[k - 1])
  }

  /** Field `k` is set and disagrees with the rank inferred from the fields before it. */
  predicate MismatchAt(d: IndexDomain, k: nat)
    requires k < |DomainFields|
  {
    FieldLength(d, DomainFields[k]).Some? && RankBefore(d, k).Some?
    && FieldLength(d, DomainFields[k]) != RankBefore(d, k)
  }

  /** The first field, from `k` on, whose length disagrees with the rank inferred before it. */
  function FirstMismatch(d: IndexDomain, k: nat): (r: Option<nat>)
    requires k <= |DomainFields|
    decreases |DomainFields| - k
    ensures r.Some? ==> k <= r.value < |DomainFields| && MismatchAt(d, r.value)
    ensures r.Some? ==> forall j :: k <= j < r.value ==> !MismatchAt(d, j)
    ensures r.None? ==> forall j :: k <= j < |DomainFields| ==> !MismatchAt(d, j)
  {
    if k == |DomainFields| then None
    else if MismatchAt(d, k) then Some(k)
    else FirstMismatch(d, k + 1)
  }

  /** Bounds consistency: the first dimension `i >= k` of the zipped lists with `max[i] - min[i] != shape[i]`. */
  function FirstBoundsMismatch(shape: seq<int>, lo: seq<int>, hi: seq<int>, k: nat): (r: Option<nat>)
    requires k <= |shape| && k <= |lo| && k <= |hi|
    decreases |shape| - k
    ensures r.Some? ==> k <= r.value < |shape| && r.value < |lo| && r.value < |hi|
                        && hi[r.value] - lo[r.value] != shape[r.value]
    ensures r.Some? ==> forall j :: k <= j < r.value ==> hi[j] - lo[j] == shape[j]
    ensures r.None? ==> forall j :: k <= j < |shape| && j < |lo| && j < |hi| ==> hi[j] - lo[j] == shape[j]
  {
    if k == |shape| || k == |lo| || k == |hi| then None
    else if hi[k] - lo[k] != shape[k] then Some(k)
    else FirstBoundsMismatch(shape, lo, hi, k + 1)
  }

  /** What the post-init check decides: the first length mismatch, else the first bounds mismatch, else pass. */
  function DomainCheck(d: IndexDomain): Outcome<TransformError>
  {
    match FirstMismatch(d, 0)
    case Some(k) =>
      Fail(LengthMismatch(DomainFields[k], FieldLength(d, DomainFields[k]).value, RankBefore(d, k).value))
    case None =>
      if d.shape.Some? && d.inclusiveMin.Some? && d.exclusiveMax.Some? then
        match FirstBoundsMismatch(d.shape.value, d.inclusiveMin.value, d.exclusiveMax.value, 0)
        case Some(i) => Fail(BoundsMismatch(i, d.shape.value[i], d.inclusiveMin.value[i], d.exclusiveMax.value[i]))
        case None => Pass
      else Pass
  }

  /** One step of the post-init check: compare field `f` with the rank inferred so far. */
  method CheckFieldLength(d: IndexDomain, k: nat, rank: Option<nat>) returns (newRank: Option<nat>, r: Outcome<TransformError>)
    requires k < |DomainFields|
    requires rank == RankBefore(d, k)
    ensures r == Pass ==> !MismatchAt(d, k) && newRank == RankBefore(d, k + 1)
    ensures r != Pass ==>
      (MismatchAt(d, k)
       && r == Fail(LengthMismatch(DomainFields[k], FieldLength(d, DomainFields[k]).value, RankBefore(d, k).value)))
  {
    newRank, r := rank, Pass;
    var len := FieldLength(d, DomainFields[k]);
    if len.Some? {
      if rank.None? {
        newRank := len;
      } else if rank != len {
        r := Fail(LengthMismatch(DomainFields[k], len.value, rank.value));
      }
    }
  }

  /**
   * `IndexDomain.model_post_init`: infer the rank field by field (shape, inclusive_min,
   * exclusive_max, labels, implicit), failing on the first field whose length disagrees,
   * then walk the zipped shape and bounds.
   */
  method DomainPostInit(d: IndexDomain) returns (r: Outcome<TransformError>)
    ensures r == DomainCheck(d)
  {
    var rank: Option<nat> := None;
    var res;
    rank, res := CheckFieldLength(d, 0, rank);
    if res != Pass { return res; }
    rank, res := CheckFieldLength(d, 1, rank);
    if res != Pass { return res; }
    rank, res := CheckFieldLength(d, 2, rank);
    if res != Pass { return res; }
    rank, res := CheckFieldLength(d, 3, rank);
    if res != Pass { return res; }
    rank, res := CheckFieldLength(d, 4, rank);
    if res != Pass { return res; }
    if d.shape.Some? && d.inclusiveMin.Some? && d.exclusiveMax.Some? {
      var shape, lo, hi := d.shape.value, d.inclusiveMin.value, d.exclusiveMax.value;
      var i := 0;
      while i < |shape| && i < |lo| && i < |hi|
        invariant 0 <= i <= |shape| && i <= |lo| && i <= |hi|
        invariant FirstBoundsMismatch(shape, lo, hi, 0) == FirstBoundsMismatch(shape, lo, hi, i)
      {
        if hi[i] - lo[i] != shape[i] {
          return Fail(BoundsMismatch(i, shape[i], lo[i], hi[i]));
        }
        i := i + 1;
      }
    }
    return Pass;
  }

  /** Every field that is set has the domain's rank as its length. */
  predicate LengthsAgree(d: IndexDomain)
  {
    forall k :: 0 <= k < |DomainFields| && FieldLength(d, DomainFields[k]).Some? ==> FieldLength(d, DomainFields[k]) == Rank(d)
  }

  /** With shape, inclusive_min and exclusive_max all set, each dimension's size is max - min. */
  predicate BoundsAgree(d: IndexDomain)
  {
    d.shape.Some? && d.inclusiveMin.Some? && d.exclusiveMax.Some? ==>
      forall i :: 0 <= i < |d.shape.value| && i < |d.inclusiveMin.value| && i < |d.exclusiveMax.value| ==>
        d.exclusiveMax.value[i] - d.inclusiveMin.value[i] == d.shape.value[i]
  }

  /** The rank property is the rank inferred after all five fields. */
  lemma RankIsInferredRank(d: IndexDomain)
    ensures Rank(d) == RankBefore(d, |DomainFields|)
  {
    assert RankBefore(d, 1) == FieldLength(d, ShapeField);
    assert RankBefore(d, 2) == if RankBefore(d, 1).Some? then RankBefore(d, 1) else FieldLength(d, InclusiveMinField);
    assert RankBefore(d, 3) == if RankBefore(d, 2).Some? then RankBefore(d, 2) else FieldLength(d, ExclusiveMaxField);
    assert RankBefore(d, 4) == if RankBefore(d, 3).Some? then RankBefore(d, 3) else FieldLength(d, LabelsField);
  }

  /** Once a rank has been inferred it never changes, so it is the domain's rank. */
  lemma {:induction false} InferredRankIsRank(d: IndexDomain, k: nat)
    requires k <= |DomainFields|
    requires RankBefore(d, k).Some?
    ensures RankBefore(d, k) == Rank(d)
    decreases |DomainFields| - k
  {
    if k == |DomainFields| {
      RankIsInferredRank(d);
    } else {
      assert RankBefore(d, k + 1) == RankBefore(d, k);
      InferredRankIsRank(d, k + 1);
    }
  }

  /** No field mismatches the rank inferred before it iff every set field has the domain's rank. */
  lemma NoMismatchIffLengthsAgree(d: IndexDomain)
    ensures (forall k :: 0 <= k < |DomainFields| ==> !MismatchAt(d, k)) <==> LengthsAgree(d)
  {
    if forall k :: 0 <= k < |DomainFields| ==> !MismatchAt(d, k) {
      forall k | 0 <= k < |DomainFields| && FieldLength(d, DomainFields[k]).Some?
        ensures FieldLength(d, DomainFields[k]) == Rank(d)
      {
        assert !MismatchAt(d, k);
        if RankBefore(d, k).Some? {
          InferredRankIsRank(d, k);
        } else {
          assert RankBefore(d, k + 1) == FieldLength(d, DomainFields[k]);
          InferredRankIsRank(d, k + 1);
        }
      }
    }
    if LengthsAgree(d) {
      forall k | 0 <= k < |DomainFields| ensures !MismatchAt(d, k) {
        if RankBefore(d, k).Some? {
          InferredRankIsRank(d, k);
        }
      }
    }
  }

  /**
   * The post-init check passes exactly when every set field has the domain's rank and,
   * with shape and both bounds set, every size equals max - min.
   */
  lemma DomainCheckPassIff(d: IndexDomain)
    ensures DomainCheck(d) == Pass <==> LengthsAgree(d) && BoundsAgree(d)
  {
    NoMismatchIffLengthsAgree(d);
  }

  /**
   * A length failure names a set field whose length differs from the domain's rank, and every
   * field visited before it that is set has that rank.
   */
  lemma DomainCheckLengthFailure(d: IndexDomain)
    requires DomainCheck(d).Fail? && DomainCheck(d).error.LengthMismatch?
    ensures var e := DomainCheck(d).error;
      Rank(d) == Some(e.rank) && e.length != e.rank
      && (exists k :: 0 <= k < |DomainFields| && DomainFields[k] == e.field
            && FieldLength(d, e.field) == Some(e.length)
            && (forall j :: 0 <= j < k && FieldLength(d, DomainFields[j]).Some? ==> FieldLength(d, DomainFields[j]) == Some(e.rank)))
  {
    var k := FirstMismatch(d, 0).value;
    InferredRankIsRank(d, k);
    forall j | 0 <= j < k && FieldLength(d, DomainFields[j]).Some?
      ensures FieldLength(d, DomainFields[j]) == Rank(d)
    {
      if RankBefore(d, j).Some? {
        InferredRankIsRank(d, j);
      } else {
        assert RankBefore(d, j + 1) == FieldLength(d, DomainFields[j]);
        InferredRankIsRank(d, j + 1);
      }
    }
  }

  /** A bounds failure names a dimension whose size differs from max - min, once all lengths agree. */
  lemma DomainCheckBoundsFailure(d: IndexDomain)
    requires DomainCheck(d).Fail? && DomainCheck(d).error.BoundsMismatch?
    ensures LengthsAgree(d)
    ensures var e := DomainCheck(d).error;
      d.shape.Some? && d.inclusiveMin.Some? && d.exclusiveMax.Some?
      && e.dimension < |d.shape.value| == |d.inclusiveMin.value| == |d.exclusiveMax.value|
      && e.size == d.shape.value[e.dimension]
      && e.exclusiveMax - e.inclusiveMin != e.size
  {
    NoMismatchIffLengthsAgree(d);
    assert FieldLength(d, DomainFields[0]).Some? && FieldLength(d, DomainFields[1]).Some? && FieldLength(d, DomainFields[2]).Some?;
  }

  /** A domain with no field set has no rank and is accepted. */
  lemma EmptyDomainAccepted()
    ensures Rank(IndexDomain(None, None, None, None, None)) == None
    ensures DomainCheck(IndexDomain(None, None, None, None, None)) == Pass
  {
    DomainCheckPassIff(IndexDomain(None, None, None, None, None));
  }

  /** `IndexDomain(shape=[100, 200], labels=["height", "width"])` is accepted with rank 2. */
  lemma DomainExample()
    ensures var d := IndexDomain(Some([100, 200]), None, None, Some([Some("height"), Some("width")]), None);
      Rank(d) == Some(2) && DomainCheck(d) == Pass
  {
    var d := IndexDomain(Some([100, 200]), None, None, Some([Some("height"), Some("width")]), None);
    DomainCheckPassIff(d);
  }

  // ---------------------------------------------------------------- OutputIndexMap

  datatype OutputIndexMap = OutputIndexMap(
    inputDimension: Option<int>,
    offset: int,
    stride: int,
    indexArray: Option<seq<int>>)

  /** `OutputIndexMap.model_post_init`: both sources, then neither source, then a zero stride. */
  function CheckOutputMap(m: OutputIndexMap): (r: Outcome<TransformError>)
    ensures r == Pass <==> (m.inputDimension.Some? != m.indexArray.Some?) && m.stride != 0
    ensures m.inputDimension.Some? && m.indexArray.Some? ==> r == Fail(BothSources)
    ensures m.inputDimension.None? && m.indexArray.None? ==> r == Fail(NoSource)
  {
    if m.inputDimension.Some? && m.indexArray.Some? then Fail(BothSources)
    else if m.inputDimension.None? && m.indexArray.None? then Fail(NoSource)
    else if m.stride == 0 then Fail(ZeroStride)
    else Pass
  }

  /** Building an output index map: offset defaults to 0 and stride to 1, then the post-init check runs. */
  function MakeOutputMap(inputDimension: Option<int>, offset: Option<int>, stride: Option<int>,
                         indexArray: Option<seq<int>>): (r: Result<OutputIndexMap, TransformError>)
    ensures r.Ok? <==> (inputDimension.Some? != indexArray.Some?) && stride != Some(0)
    ensures r.Ok? ==> r.value == OutputIndexMap(inputDimension, offset.GetOr(0), stride.GetOr(1), indexArray)
  {
    var m := OutputIndexMap(inputDimension, offset.GetOr(0), stride.GetOr(1), indexArray);
    match CheckOutputMap(m)
    case Fail(e) => Err(e)
    case Pass => Ok(m)
  }

  /** With the default stride, exactly one source is all an output map needs; the input dimension may be negative. */
  lemma DefaultStrideAccepted(dim: int)
    ensures MakeOutputMap(Some(dim), None, None, None) == Ok(OutputIndexMap(Some(dim), 0, 1, None))
    ensures MakeOutputMap(None, None, None, Some([dim])) == Ok(OutputIndexMap(None, 0, 1, Some([dim])))
    ensures MakeOutputMap(Some(dim), None, Some(0), None) == Err(ZeroStride)
  {
  }

  // ---------------------------------------------------------------- IndexTransform

  datatype IndexTransform = IndexTransform(
    inputRank: Option<int>,
    outputRank: Option<int>,
    inputShape: Option<seq<int>>,
    inputLabels: Option<seq<Option<string>>>,
    inputInclusiveMin: Option<seq<int>>,
    inputExclusiveMax: Option<seq<int>>,
    output: Option<seq<OutputIndexMap>>)

  /** The input rank: input_rank, else the length of input_shape, input_labels, input_inclusive_min, input_exclusive_max. */
  function InputRank(t: IndexTransform): (r: Option<int>)
    ensures t.inputRank.Some? ==> r == t.inputRank
    ensures r.None? <==> t.inputRank.None? && t.inputShape.None? && t.inputLabels.None?
                         && t.inputInclusiveMin.None? && t.inputExclusiveMax.None?
  {
    if t.inputRank.Some? then t.inputRank
    else if t.inputShape.Some? then Some(|t.inputShape.value|)
    else if t.inputLabels.Some? then Some(|t.inputLabels.value|)
    else if t.inputInclusiveMin.Some? then Some(|t.inputInclusiveMin.value|)
    else if t.inputExclusiveMax.Some? then Some(|t.inputExclusiveMax.value|)
    else None
  }

  /** The output rank: output_rank, else the number of output maps. */
  function OutputRank(t: IndexTransform): (r: Option<int>)
    ensures t.outputRank.Some? ==> r == t.outputRank
    ensures t.outputRank.None? && t.output.Some? ==> r == Some(|t.output.value|)
    ensures r.None? <==> t.outputRank.None? && t.output.None?
  {
    if t.outputRank.Some? then t.outputRank
    else if t.output.Some? then Some(|t.output.value|)
    else None
  }

  /** The first output map, from `k` on, whose input dimension is at least `rank`. */
  function FirstOutOfRange(maps: seq<OutputIndexMap>, rank: int, k: nat): (r: Option<nat>)
    requires k <= |maps|
    decreases |maps| - k
    ensures r.Some? ==> k <= r.value < |maps| && maps[r.value].inputDimension.Some? && maps[r.value].inputDimension.value >= rank
    ensures r.Some? ==> forall j :: k <= j < r.value && maps[j].inputDimension.Some? ==> maps[j].inputDimension.value < rank
    ensures r.None? ==> forall j :: k <= j < |maps| && maps[j].inputDimension.Some? ==> maps[j].inputDimension.value < rank
  {
    if k == |maps| then None
    else if maps[k].inputDimension.Some? && maps[k].inputDimension.value >= rank then Some(k)
    else FirstOutOfRange(maps, rank, k + 1)
  }

  /** What `IndexTransform.model_post_init` decides, in the order it checks. */
  function TransformCheck(t: IndexTransform): Outcome<TransformError>
  {
    var n := InputRank(t);
    var m := OutputRank(t);
    if n.Some? && t.inputShape.Some? && |t.inputShape.value| != n.value then Fail(InputShapeLength)
    else if n.Some? && t.inputLabels.Some? && |t.inputLabels.value| != n.value then Fail(InputLabelsLength)
    else if m.Some? && t.output.Some? && |t.output.value| != m.value then Fail(OutputLength)
    else if t.output.Some? && n.Some? && FirstOutOfRange(t.output.value, n.value, 0).Some? then
      var i := FirstOutOfRange(t.output.value, n.value, 0).value;
      Fail(InputDimensionOutOfRange(i, t.output.value[i].inputDimension.value, n.value))
    else Pass
  }

  /**
   * `IndexTransform.model_post_init`: infer the input and output ranks step by step, check
   * input_shape, input_labels and output against them, then scan the output maps.
   */
  method TransformPostInit(t: IndexTransform) returns (r: Outcome<TransformError>)
    ensures r == TransformCheck(t)
  {
    var inputRank := t.inputRank;
    if inputRank.None? && t.inputShape.Some? { inputRank := Some(|t.inputShape.value|); }
    if inputRank.None? && t.inputLabels.Some? { inputRank := Some(|t.inputLabels.value|); }
    if inputRank.None? && t.inputInclusiveMin.Some? { inputRank := Some(|t.inputInclusiveMin.value|); }
    if inputRank.None? && t.inputExclusiveMax.Some? { inputRank := Some(|t.inputExclusiveMax.value|); }

    var outputRank := t.outputRank;
    if outputRank.None? && t.output.Some? { outputRank := Some(|t.output.value|); }

    if inputRank.Some? {
      if t.inputShape.Some? && |t.inputShape.value| != inputRank.value { return Fail(InputShapeLength); }
      if t.inputLabels.Some? && |t.inputLabels.value| != inputRank.value { return Fail(InputLabelsLength); }
    }
    if outputRank.Some? {
      if t.output.Some? && |t.output.value| != outputRank.value { return Fail(OutputLength); }
    }
    if t.output.Some? && inputRank.Some? {
      var maps := t.output.value;
      var i := 0;
      while i < |maps|
        invariant 0 <= i <= |maps|
        invariant FirstOutOfRange(maps, inputRank.value, 0) == FirstOutOfRange(maps, inputRank.value, i)
      {
        if maps[i].inputDimension.Some? && maps[i].inputDimension.value >= inputRank.value {
          return Fail(InputDimensionOutOfRange(i, maps[i].inputDimension.value, inputRank.value));
        }
        i := i + 1;
      }
    }
    return Pass;
  }

  /** A transform whose input shape, labels and output maps are consistent with its ranks. */
  predicate ConsistentTransform(t: IndexTransform)
  {
    var n := InputRank(t);
    var m := OutputRank(t);
    (n.Some? && t.inputShape.Some? ==> |t.inputShape.value| == n.value)
    && (n.Some? && t.inputLabels.Some? ==> |t.inputLabels.value| == n.value)
    && (m.Some? && t.output.Some? ==> |t.output.value| == m.value)
    && (n.Some? && t.output.Some? ==>
          forall i :: 0 <= i < |t.output.value| && t.output.value[i].inputDimension.Some? ==>
            t.output.value[i].inputDimension.value < n.value)
  }

  /** The post-init check passes exactly for consistent transforms. */
  lemma TransformCheckPassIff(t: IndexTransform)
    ensures TransformCheck(t) == Pass <==> ConsistentTransform(t)
  {
  }

  /**
   * Only input_shape and input_labels are compared with the input rank: bounds of another
   * length pass, and so does a negative input dimension.
   */
  lemma TransformBoundsUnchecked()
    ensures TransformCheck(IndexTransform(None, None, Some([4]), None, Some([0, 0, 0]), Some([]), None)) == Pass
    ensures TransformCheck(IndexTransform(Some(2), None, None, None, None, None,
                                          Some([OutputIndexMap(Some(-1), 0, 1, None)]))) == Pass
    ensures TransformCheck(IndexTransform(Some(2), None, None, None, None, None,
                                          Some([OutputIndexMap(Some(2), 0, 1, None)]))) == Fail(InputDimensionOutOfRange(0, 2, 2))
  {
  }

  /** Without an explicit input_rank, input_shape supplies the rank and so always matches it. */
  lemma ImplicitInputRankMatchesShape(t: IndexTransform)
    requires t.inputRank.None? && t.inputShape.Some?
    ensures InputRank(t) == Some(|t.inputShape.value|)
    ensures TransformCheck(t) != Fail(InputShapeLength)
  {
  }
}
