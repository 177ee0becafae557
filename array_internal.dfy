/**
 * The second-draft in-memory array driver. The array is modelled by its shape (numpy
 * conversion is outside the model); the spec's rank, when set, must equal its number of
 * dimensions.
 */
module InternalArray {
  import opened Wrappers
  import opened Json
  import Types

  datatype ArrayError = RankMismatch(rank: int, ndim: nat)

  /**
   * The second-draft `ArraySpec`: driver "array", the element type, the array (by its shape),
   * the rank inherited from the base spec, and the data-copy resource (any context-resource
   * value: a dict, bool, number, string or None).
   */
  datatype ArraySpec = ArraySpec(
    dtype: Types.DataType,
    shape: seq<nat>,
    rank: Option<int>,
    dataCopyConcurrency: Json)

  /** The resource field's default: a reference to the resource by its name. */
  const DefaultDataCopyConcurrency: Json := Str("data_copy_concurrency")

  /** The defaults: no rank, and the data-copy resource named by its default name. */
  function MakeArraySpec(dtype: Types.DataType, shape: seq<nat>): (s: ArraySpec)
    ensures s.rank.None? && s.dataCopyConcurrency == DefaultDataCopyConcurrency
    ensures s.dtype == dtype && s.shape == shape
  {
    ArraySpec(dtype, shape, None, DefaultDataCopyConcurrency)
  }

  function Ndim(s: ArraySpec): nat { |s.shape| }

  /** `_validate_array_rank_consistency`: a set rank must equal the array's number of dimensions. */
  function ValidateRankConsistency(s: ArraySpec): (r: Result<ArraySpec, ArrayError>)
    ensures r.Ok? <==> s.rank.None? || s.rank.value == |s.shape|
    ensures r.Ok? ==> r.value == s
    ensures r.Err? ==> r.error == RankMismatch(s.rank.value, |s.shape|)
  {
    if s.rank.Some? && s.rank.value != Ndim(s) then Err(RankMismatch(s.rank.value, Ndim(s)))
    else Ok(s)
  }

  /** A spec without a rank accepts an array of any dimensionality; setting the rank to the array's own passes too. */
  lemma RankConsistencyExamples(dtype: Types.DataType, shape: seq<nat>)
    ensures ValidateRankConsistency(MakeArraySpec(dtype, shape)).Ok?
    ensures ValidateRankConsistency(MakeArraySpec(dtype, shape).(rank := Some(|shape|))).Ok?
    ensures ValidateRankConsistency(MakeArraySpec(dtype, shape).(rank := Some(|shape| + 1))).Err?
  {
  }
}
