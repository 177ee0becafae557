# pydantic-tensorstore: validation and normalisation core in Dafny

pydantic-tensorstore describes TensorStore specifications as typed records:
- a driver (array, zarr, zarr3, n5, neuroglancer_precomputed);
- a key-value store (file, memory, s3);
- a schema, an index domain or transform, a chunk layout and a context of shared resources.

It validates dictionaries into those records, rejecting what TensorStore would reject. It also offers fluent builders, cross-field validation with its own error family, introspection helpers and dictionary-level conversion utilities.

This project models that core in Dafny and proves properties of it:
- **Values and records.** The JSON-like values a specification holds become the datatype `Json`. `json.dfy` defines the Python and pydantic notions the parsers share: `isinstance(v, int)`, where a bool counts; pydantic's lax bool, where 0 and 1 count; truthiness; and Python `==`, which compares numbers by value at every depth. Where the source compares only strings or ints, Dafny's `==` stands for Python's. Each record becomes a datatype, and building a record from a dictionary becomes a parse function returning a `Result`.
- **Validators.** The field validators keep their branches, error cases and constants. Pydantic's own coercions are modelled only in part; "## Left out" lists what is missing.
- **Stateful code.** Code that updates state in place is modelled as classes:
  - the builders' `_spec_data` dictionary;
  - the context's resource slots.
- **Loops.** The source's loops are modelled as methods:
  - the index-domain and index-transform post-init checks;
  - the chunk-grid length check and `_post_validate`;
  - `validate_dimension_units`;
  - `get_zarr_metadata_defaults`;
  - `get_spec_info` and `get_compatible_drivers`;
  - `merge_specs` and `compare_specs`.

  Each method is proved against a specification function, and the function's properties are proved as lemmas.
- **Two drafts.** The repository carries two drafts of several modules, and both are modelled. They are the `_core`, `_drivers` and `_kvstore` packages beside `core`, `drivers` and `kvstore`. The second-draft modules are named `Internal…`, or `KvStore` for `_kvstore`.

Code outside the model is passed in as function-valued parameters. This covers:
- the TensorStore library itself;
- pydantic's `model_validate`/`model_dump` of the top-level spec union;
- `str()`, `float()` and `int()` on text;
- `Path.resolve`;
- numpy conversion.

The lemmas hold for every choice of those parameters unless a `requires` says otherwise.

All source paths below are relative to the repository root.

## Model

| member | source | states |
|---|---|---|
| Types.AllDataTypeNames | src/pydantic_tensorstore/_types.py:30-74 | one value per DataType member, in declaration order |
| Types.ParseDataType | src/pydantic_tensorstore/_types.py:30-74 | `DataType(s)` returns a member whose value is exactly `s` |
| Types.ParseIntegralType | src/pydantic_tensorstore/_types.py:35-49 | a bool or integer member, whose value is exactly `s` |
| Types.ParseFloatingType | src/pydantic_tensorstore/_types.py:51-61 | a floating-point member, whose value is exactly `s` |
| Types.ParseOtherType | src/pydantic_tensorstore/_types.py:63-74 | a complex, string or json member, whose value is exactly `s` |
| Types.DataTypeRoundTrip | src/pydantic_tensorstore/_types.py:30-74 | looking a member up by its own value gives back that member |
| Types.ParseDataTypeExact | src/pydantic_tensorstore/_types.py:30-74 | a string is accepted iff it is the value of some member (the enum is closed) |
| Types.DataTypeNamesInjective | src/pydantic_tensorstore/_types.py:30-74 | distinct members have distinct values |
| Types.AllDataTypesComplete | src/pydantic_tensorstore/_types.py:30-74 | the member list holds every member; there are 25 |
| Types.ParseOpenMode | src/pydantic_tensorstore/_types.py:77-87 | an accepted open-mode string is the value of the member returned |
| Types.OpenModeRoundTrip | src/pydantic_tensorstore/_types.py:77-87 | the five open modes round-trip through their values, which are exactly the five listed |
| Types.ParseReadWriteMode | src/pydantic_tensorstore/_types.py:90-95 | an accepted read/write-mode string is the value of the member returned |
| Types.ReadWriteModeRoundTrip | src/pydantic_tensorstore/_types.py:90-95 | the three read/write modes round-trip through their values |
| Types.UnitTextShape | src/pydantic_tensorstore/_types.py:102-114 | `str(Unit)` is empty exactly for the default unit; it is the base unit when the multiplier is 1, else the rendered multiplier followed by the base unit |
| Types.KnownDriversAreDriverNames | src/pydantic_tensorstore/_types.py:118-119 | every driver identifier in the model matches the DriverName pattern; "", "3d" and a name with a trailing newline do not |
| Transform.TruncateTowardZero | src/pydantic_tensorstore/core/transform.py:38-44 | `int(x)` on a float truncates toward zero, for both signs |
| Transform.ValidateSize | src/pydantic_tensorstore/core/transform.py:34-49 | None stays None; an int is kept only when positive; lists and dicts cannot be converted; a string fails iff `int()` fails; an accepted size is positive |
| Transform.CheckDimension | src/pydantic_tensorstore/core/transform.py:51-64 | passes iff not all three bounds are given or size equals exclusive_max - inclusive_min |
| Transform.MakeDimension | src/pydantic_tensorstore/core/transform.py:20-64 | a built DimensionSpec keeps its bounds and label, holds the validated size, and has size = max - min when all three are given |
| Transform.ValidateShape | src/pydantic_tensorstore/core/transform.py:104-118 | None stays None; a non-list is rejected; an accepted shape has one positive integer per entry; a non-positive entry is reported by its index |
| Transform.ScanShape | src/pydantic_tensorstore/core/transform.py:113-117 | the scan passes iff every entry is a number greater than 0; a failure names the first offending index |
| Transform.ShapeInts | src/pydantic_tensorstore/core/transform.py:104-118 | the list[int] conversion keeps each entry's value, one per entry |
| Transform.FirstMismatch | src/pydantic_tensorstore/core/transform.py:120-164 | finds the first field whose length differs from the rank inferred before it, and no earlier one |
| Transform.FirstBoundsMismatch | src/pydantic_tensorstore/core/transform.py:166-178 | finds the first dimension whose max - min differs from its shape entry, and no earlier one |
| Transform.CheckFieldLength | src/pydantic_tensorstore/core/transform.py:127-164 | one step of the rank inference: on pass the field agrees with the rank so far and the new rank is the one inferred through this field |
| Transform.DomainPostInit | src/pydantic_tensorstore/core/transform.py:120-178 | the loop-based post-init returns exactly the decision of the specification function `DomainCheck` |
| Transform.RankIsInferredRank | src/pydantic_tensorstore/core/transform.py:180-193 | the `rank` property equals the rank the post-init check infers after all five fields |
| Transform.InferredRankIsRank | src/pydantic_tensorstore/core/transform.py:120-193 | once a rank has been inferred it never changes, so it is the domain's rank |
| Transform.NoMismatchIffLengthsAgree | src/pydantic_tensorstore/core/transform.py:120-164 | no field disagrees with the rank inferred before it iff every set field has the domain's rank |
| Transform.DomainCheckPassIff | src/pydantic_tensorstore/core/transform.py:120-178 | the domain is accepted iff every set field has the domain's rank and, with shape and both bounds set, every size equals max - min |
| Transform.DomainCheckLengthFailure | src/pydantic_tensorstore/core/transform.py:127-164 | a length failure names a set field whose length differs from the domain's rank, and every earlier set field has that rank |
| Transform.DomainCheckBoundsFailure | src/pydantic_tensorstore/core/transform.py:166-178 | a bounds failure happens only once all lengths agree, and names a dimension whose size differs from max - min |
| Transform.EmptyDomainAccepted | src/pydantic_tensorstore/core/transform.py:120-193 | a domain with no field set has no rank and is accepted |
| Transform.DomainExample | src/pydantic_tensorstore/core/transform.py:67-193 | a domain with shape [100, 200] and two labels is accepted with rank 2 |
| Transform.CheckOutputMap | src/pydantic_tensorstore/core/transform.py:210-217 | an output map passes iff exactly one of input_dimension and index_array is given and the stride is non-zero; both or neither are reported as such |
| Transform.MakeOutputMap | src/pydantic_tensorstore/core/transform.py:196-217 | offset defaults to 0 and stride to 1; construction succeeds iff exactly one source is given and the stride is not 0 |
| Transform.DefaultStrideAccepted | src/pydantic_tensorstore/core/transform.py:196-217 | with the defaults one source suffices, even a negative input dimension; an explicit zero stride is rejected |
| Transform.InputRank | src/pydantic_tensorstore/core/transform.py:269-277 | an explicit input_rank wins; the input rank is unknown iff neither input_rank, input_shape nor input_labels is given |
| Transform.OutputRank | src/pydantic_tensorstore/core/transform.py:279-282 | an explicit output_rank wins, else the number of output maps; unknown iff neither is given |
| Transform.FirstOutOfRange | src/pydantic_tensorstore/core/transform.py:300-310 | finds the first output map whose input dimension is at least the input rank, and no earlier one |
| Transform.TransformPostInit | src/pydantic_tensorstore/core/transform.py:267-310 | the loop-based post-init returns exactly the decision of the specification function `TransformCheck` |
| Transform.TransformCheckPassIff | src/pydantic_tensorstore/core/transform.py:267-310 | a transform is accepted iff input_shape, input_labels and output agree with the inferred ranks and every output map's input dimension is below the input rank |
| Transform.TransformBoundsUnchecked | src/pydantic_tensorstore/core/transform.py:284-310 | input bounds of another length and a negative input dimension are not checked |
| Transform.ImplicitInputRankMatchesShape | src/pydantic_tensorstore/core/transform.py:269-290 | without input_rank the input rank is the shape's length, so the shape-length check cannot fail |
| ChunkLayout.PresentNames | src/pydantic_tensorstore/core/chunk_layout.py:75-100 | one reported field name per collected length |
| ChunkLayout.PresentLengthsMembers | src/pydantic_tensorstore/core/chunk_layout.py:75-94 | a length is collected iff some list-valued grid field has that length |
| ChunkLayout.FewDistinctIffAllEqual | src/pydantic_tensorstore/core/chunk_layout.py:95-100 | `len(set(arrays)) <= 1` iff all collected lengths are equal |
| ChunkLayout.CollectedLengthsAgree | src/pydantic_tensorstore/core/chunk_layout.py:75-100 | the collected lengths are all equal iff the grid's list fields agree in length |
| ChunkLayout.CollectedEqualConsistent | src/pydantic_tensorstore/core/chunk_layout.py:75-100 | equal collected lengths mean any two list-valued fields have the same length |
| ChunkLayout.ConsistentCollectedEqual | src/pydantic_tensorstore/core/chunk_layout.py:75-100 | list-valued fields of one common length give equal collected lengths |
| ChunkLayout.CheckGridLengths | src/pydantic_tensorstore/core/chunk_layout.py:75-100 | the grid passes iff its list-valued fields have one common length; on failure the error lists the field names and lengths found |
| ChunkLayout.Range | src/pydantic_tensorstore/core/chunk_layout.py:179-183 | `list(range(n))` holds 0..n-1, empty for n <= 0 |
| ChunkLayout.SortIntsSorted | src/pydantic_tensorstore/core/chunk_layout.py:179-183 | `sorted` returns a sorted permutation of its input |
| ChunkLayout.SortedUnique | src/pydantic_tensorstore/core/chunk_layout.py:179-183 | two sorted sequences with the same elements are equal, so `sorted` has one possible result |
| ChunkLayout.PermutationCheckSound | src/pydantic_tensorstore/core/chunk_layout.py:174-183 | an accepted inner order has rank entries, all in [0, rank), none repeated |
| ChunkLayout.PermutationCheckComplete | src/pydantic_tensorstore/core/chunk_layout.py:174-183 | every permutation of 0..rank-1 is accepted as an inner order |
| ChunkLayout.PermutationCheckIff | src/pydantic_tensorstore/core/chunk_layout.py:174-183 | `sorted(v) == list(range(rank))` iff v is a permutation of 0..rank-1 |
| ChunkLayout.PermutationOrderIrrelevant | src/pydantic_tensorstore/core/chunk_layout.py:174-183 | whether an inner order is accepted does not depend on the order of its entries |
| ChunkLayout.FirstError | src/pydantic_tensorstore/core/chunk_layout.py:171-192 | no error is raised iff every individual check passes |
| ChunkLayout.PostValidate | src/pydantic_tensorstore/core/chunk_layout.py:171-192 | the layout passes iff both inner orders have a rank and are permutations of 0..rank-1 and both origins have rank entries; the error raised is the first in check order; the layout is returned unchanged |
| ChunkLayout.InnerOrderNeedsRank | src/pydantic_tensorstore/core/chunk_layout.py:174-177 | an inner order without a rank is always rejected with "rank must be specified" |
| ChunkLayout.ValidLayoutMeaning | src/pydantic_tensorstore/core/chunk_layout.py:171-192 | with a rank in range, a layout passes iff its inner orders are permutations and its origins have rank entries |
| ChunkLayout.InnerOrderExamples | src/pydantic_tensorstore/core/chunk_layout.py:179-183 | [2, 0, 1] is an inner order for rank 3; [0, 0, 1] and [0, 1] are not |
| ChunkLayout.ValidateGrid | src/pydantic_tensorstore/core/chunk_layout.py:14-100 | a grid is built iff its field constraints hold and its list lengths agree |
| ChunkLayout.ValidateLayout | src/pydantic_tensorstore/core/chunk_layout.py:103-192 | a layout is built iff the rank is within 0..32, every grid is valid and `_post_validate` passes |
| Schema.MatchUnitPatternIff | src/pydantic_tensorstore/core/schema.py:95-97 | for any digit class that is exactly 0-9 on ASCII characters (Python's `\d` also takes every Unicode decimal digit), the unit pattern matches exactly digits/dots, then ASCII letters, then an optional final newline, and yields those two groups |
| Schema.ParseUnitString | src/pydantic_tensorstore/core/schema.py:89-101 | "" is the default unit; a non-matching string becomes a base unit with multiplier 1; parsing fails only when a matched multiplier is not a float |
| Schema.UnitTextRoundTrip | src/pydantic_tensorstore/core/schema.py:89-101 | a unit written out with `str(Unit)` parses back to itself (for a float rendering that parses back and contains no letters) |
| Schema.ParseUnitExamples | src/pydantic_tensorstore/core/schema.py:89-101 | "4nm" is 4 nm, "nm" is 1 nm, and "4 nm" is kept whole as a base unit |
| Schema.UnicodeDigitMultiplier | src/pydantic_tensorstore/core/schema.py:95-98 | "٣nm", whose first character is a non-ASCII decimal digit, is 3 nanometres, since `\d` and `float()` both read it as a digit |
| Schema.ConvertUnitEntry | src/pydantic_tensorstore/core/schema.py:84-105 | None stays None, a string is parsed, a dict is validated as a Unit, anything else is kept raw |
| Schema.ValidateDimensionUnits | src/pydantic_tensorstore/core/schema.py:75-107 | None gives None, a non-list is rejected, and a list gives one converted entry per input entry, failing iff some entry fails |
| Schema.Schema.constructor | src/pydantic_tensorstore/core/schema.py:18-72 | a schema holds the fields it is given |
| Schema.Schema.DomainShapeRank | src/pydantic_tensorstore/core/schema.py:120-121 | the domain shape's length, present iff a domain with a non-empty shape is set |
| Schema.Schema.EffectiveRank | src/pydantic_tensorstore/core/schema.py:140-148 | the explicit rank wins, else the domain shape's length, else the number of dimension units |
| Schema.Schema.PostInit | src/pydantic_tensorstore/core/schema.py:117-138 | a rank that disagrees with the domain shape is reported; the check passes iff rank, domain and dimension units agree; the effective rank is unchanged |
| Schema.CompatibleReflexive | src/pydantic_tensorstore/core/schema.py:150-166 | every schema is compatible with itself |
| Schema.CompatibleSymmetric | src/pydantic_tensorstore/core/schema.py:150-166 | compatibility is symmetric |
| Schema.IncompatibleIff | src/pydantic_tensorstore/core/schema.py:150-166 | two schemas are incompatible iff both dtypes are set and differ, or both effective ranks are known and differ |
| InternalN5.ValidateN5DataType | src/pydantic_tensorstore/_drivers/n5.py:35-38 | a data type is accepted iff it is one of the ten N5 types, and is returned unchanged |
| InternalN5.StrToCompression | src/pydantic_tensorstore/_drivers/n5.py:44-51 | a bare string s stands for {"type": s}; anything else passes through |
| InternalN5.IntField | src/pydantic_tensorstore/_drivers/n5.py:54-115 | a missing field gives its default; a present one is accepted iff it is an int within the variant's bounds, where a bool counts as 0 or 1, and is kept |
| InternalN5.ParseCompression | src/pydantic_tensorstore/_drivers/n5.py:44-128 | accepted iff, after the shorthand, the value is an object whose `type` names one of the six variants and whose fields that variant accepts; the result has that tag, meets its variant's bounds, and holds each field as given or at its default; a non-object, a missing tag and an unknown tag are each reported as such |
| InternalN5.ParseBlosc | src/pydantic_tensorstore/_drivers/n5.py:54-64 | accepted iff cname is one of the six compressors and clevel in [0, 9] and shuffle in {0, 1, 2}; each field as given, or at its default "lz4", 5, 1 |
| InternalN5.ParseBzip2 | src/pydantic_tensorstore/_drivers/n5.py:67-73 | accepted iff blockSize is in [1, 9]; the value as given, default 9 |
| InternalN5.ParseGzip | src/pydantic_tensorstore/_drivers/n5.py:76-90 | accepted iff level is in [-1, 9] and useZlib a bool (0 and 1 count); each as given, or at its default -1, false |
| InternalN5.ParseXz | src/pydantic_tensorstore/_drivers/n5.py:99-105 | accepted iff preset is in [0, 9]; the value as given, default 6 |
| InternalN5.ParseZstd | src/pydantic_tensorstore/_drivers/n5.py:108-114 | accepted iff level is at most 22, with no lower bound; the value as given, default 0 |
| InternalN5.CompressionRoundTrip | src/pydantic_tensorstore/_drivers/n5.py:54-128 | every valid compression setting, written out as JSON, validates back to itself |
| InternalN5.CompressionDefaults | src/pydantic_tensorstore/_drivers/n5.py:54-128 | each bare type name gives its variant with the documented defaults; an unknown type is rejected |
| InternalN5.ZstdLevelBounds | src/pydantic_tensorstore/_drivers/n5.py:108-115 | a zstd level is accepted iff it is at most 22; there is no lower bound |
| InternalN5.LaxFieldCoercions | src/pydantic_tensorstore/_drivers/n5.py:59-90 | clevel true counts as 1, useZlib 1 counts as true, and useZlib 2 is rejected as a type error |
| InternalN5.CheckArrayConsistency | src/pydantic_tensorstore/_drivers/n5.py:175-213 | with dimensions set, the metadata passes iff every per-dimension field that is set has one entry per dimension; without dimensions it always passes |
| InternalN5.BlockSizeReportedFirst | src/pydantic_tensorstore/_drivers/n5.py:180-187 | a wrong blockSize is reported first, even when other fields are also wrong |
| N5.ValidateIntList | src/pydantic_tensorstore/drivers/n5.py:60-71 | a non-list is rejected; a list is accepted iff every element is a positive int, and keeps one value per element |
| N5.ValidateDataType | src/pydantic_tensorstore/drivers/n5.py:73-97 | accepted iff a string among the ten N5 names, returned unchanged; a non-string is rejected as such |
| N5.ParseN5Metadata | src/pydantic_tensorstore/drivers/n5.py:14-97 | accepted iff context, schema and transform are None or dicts, dimensions and blockSize are lists of positive ints, dataType is one of the ten N5 names, a given compression is a dict, and the optional axes/units and resolution/offset are lists of strings and of numbers; the record holds each value as given (compression defaulting to {"type": "raw"}), the base fields apart, and every other key as an extra |
| N5.DraftsDisagree | src/pydantic_tensorstore/drivers/n5.py:60-71 | this draft rejects a zero dimension that the other draft accepts, and accepts a blockSize length mismatch that the other rejects |
| N5.ParseN5Spec | src/pydantic_tensorstore/drivers/n5.py:100-146 | accepted iff the keys are known, the base fields are None or dicts, the driver is "n5", kvstore is a dict, path a string and metadata None or a dict; path defaults to ""; metadata is None iff missing or null, and otherwise the given dict |
| N5.NonObjectMetadataRejected | src/pydantic_tensorstore/drivers/n5.py:100-146 | metadata 5 and schema 5 are rejected, and null metadata gives a spec without metadata |
| N5.TensorstoreDtypeToN5 | src/pydantic_tensorstore/drivers/n5.py:164-182 | a supported type maps to its own value, which is an N5 name |
| N5.N5DtypeToTensorstore | src/pydantic_tensorstore/drivers/n5.py:184-202 | a supported N5 name maps to the member with that value |
| N5.DtypeTablesInverse | src/pydantic_tensorstore/drivers/n5.py:164-202 | the two tables are mutually inverse; each accepts exactly the ten N5 types; the names accepted are exactly those `validate_data_type` accepts |
| PathJoin.RStripSlash | src/pydantic_tensorstore/drivers/n5.py:162 | `rstrip('/')` gives a prefix that does not end with a slash |
| PathJoin.LStripSlash | src/pydantic_tensorstore/drivers/n5.py:162 | `lstrip('/')` gives a suffix that does not start with a slash |
| PathJoin.StripJoinOneSlash | src/pydantic_tensorstore/drivers/n5.py:162 | the stripped join has exactly one slash at the seam, and nothing else is removed |
| PathJoin.StripJoinIgnoresSeamSlashes | src/pydantic_tensorstore/drivers/n5.py:162 | extra slashes on either side of the seam do not change the stripped join |
| PathJoin.ConcatJoin | src/pydantic_tensorstore/drivers/zarr.py:179-183 | the Zarr join keeps both parts whole and adds at most one slash |
| PathJoin.JoinsAgreeWithoutSeamSlashes | src/pydantic_tensorstore/drivers/zarr.py:179-183 | without slashes at the seam both joins insert exactly one |
| PathJoin.ConcatJoinKeepsDoubleSlash | src/pydantic_tensorstore/drivers/zarr.py:179-183 | with a slash on both sides the Zarr join keeps a double slash, which the stripped join does not |
| PathJoin.KvStorePath | src/pydantic_tensorstore/drivers/n5.py:150-153 | `kvstore.get("path", "")` |
| PathJoin.StripEffectivePathCases | src/pydantic_tensorstore/drivers/n5.py:148-162 | an empty store path gives the driver path; an empty driver path gives the store path; otherwise they are joined with one slash |
| Array.CheckRectangular | src/pydantic_tensorstore/drivers/array.py:71-104 | an accepted value reports the shape that `get_shape` computes, with positive extents, at the reported depth; an empty list fails at its depth |
| Array.CheckSiblings | src/pydantic_tensorstore/drivers/array.py:88-99 | the siblings pass iff each is a list whose check gives the first element's shape and depth |
| Array.GetShape | src/pydantic_tensorstore/drivers/array.py:136-142 | a non-empty list's shape starts with its length; a scalar or empty list has shape [] |
| Array.CheckRectangularSound | src/pydantic_tensorstore/drivers/array.py:71-104 | an accepted nested list is rectangular at every level but the last, whose first element is a scalar |
| Array.CheckRectangularComplete | src/pydantic_tensorstore/drivers/array.py:71-104 | every truly rectangular nested list with positive extents is accepted with its shape |
| Array.SiblingsComplete | src/pydantic_tensorstore/drivers/array.py:88-99 | siblings that all match the first element pass the loop |
| Array.ValidateArrayData | src/pydantic_tensorstore/drivers/array.py:58-114 | a list is accepted iff it is non-empty and rectangular, and is returned unchanged; other values are accepted iff numpy converts them |
| Array.ValidateDtype | src/pydantic_tensorstore/drivers/array.py:116-128 | accepted iff a string naming a DataType member, returning that member |
| Array.GetArrayNdim | src/pydantic_tensorstore/drivers/array.py:146-148 | a non-empty list has at least one dimension |
| Array.NdimIsCheckedDepth | src/pydantic_tensorstore/drivers/array.py:71-148 | an accepted list has as many dimensions as the depth the check reaches |
| Array.TwoByThreeAccepted | src/pydantic_tensorstore/drivers/array.py:71-104 | a 2x3 list is accepted with shape [2, 3] |
| Array.RaggedRejected | src/pydantic_tensorstore/drivers/array.py:94-99 | rows of lengths 2 and 3 are rejected |
| Array.CubeShape | src/pydantic_tensorstore/drivers/array.py:136-144 | the 2x2x2 list has shape [2, 2, 2] |
| Array.ScalarLevelNotInspected | src/pydantic_tensorstore/drivers/array.py:102-104 | a level whose first element is a scalar is accepted without looking at its siblings |
| Array.DtypeExamples | src/pydantic_tensorstore/drivers/array.py:116-128 | "int32" names a member and "invalid_type" does not |
| Array.ParseArraySpec | src/pydantic_tensorstore/drivers/array.py:14-128 | accepted iff the keys are known, the base fields are None or dicts, array is a non-empty rectangular list or a value numpy turns into a list, dtype names a DataType member, and data_copy_concurrency is None, a name or a dict; the record holds the list as given (or as converted), the member dtype names, and the resource (default "data_copy_concurrency") |
| Array.SpecExamples | src/pydantic_tensorstore/drivers/array.py:14-128 | a 2x2 int32 list is accepted with the default resource; an empty list and a scalar that numpy keeps a scalar are rejected |
| InternalArray.MakeArraySpec | src/pydantic_tensorstore/_drivers/array.py:40-55 | a new spec has no rank and the default data-copy resource name |
| InternalArray.ValidateRankConsistency | src/pydantic_tensorstore/_drivers/array.py:57-66 | passes iff no rank is set or it equals the array's dimension count; the spec is returned unchanged; the error carries both numbers |
| InternalArray.RankConsistencyExamples | src/pydantic_tensorstore/_drivers/array.py:57-66 | no rank or the array's own rank passes, and any other rank fails |
| Zarr.ValidateChunks | src/pydantic_tensorstore/drivers/zarr.py:60-76 | None stays None; a non-list is rejected; a list is accepted iff every entry is a positive int; a failure names an index in range |
| Zarr.ParseZarrMetadata | src/pydantic_tensorstore/drivers/zarr.py:16-76 | accepted iff the base fields are None or dicts, chunks is None or positive ints, compressor None or a dict, filters None or a list of dicts, fill_value a scalar, order "C" or "F", zarr_format 2 and dimension_separator a string; the record holds each value as given or at its default ("C", "."), the explicitly set fields, the base fields apart and every other key as an extra |
| Zarr.DumpSet | src/pydantic_tensorstore/drivers/zarr.py:198 | `model_dump(exclude_unset=True)` holds the explicitly set fields and the extras |
| Zarr.DumpSetRoundTrip | src/pydantic_tensorstore/drivers/zarr.py:198 | dumping parsed metadata gives back exactly the user's keys, with the same values except chunks |
| Zarr.ValidateKvStore | src/pydantic_tensorstore/drivers/zarr.py:144-153 | a dict without a driver is rejected; everything else passes unchanged |
| Zarr.ValidatePath | src/pydantic_tensorstore/drivers/zarr.py:155-161 | accepted iff a string, returned unchanged |
| Zarr.ParseZarrSpec | src/pydantic_tensorstore/drivers/zarr.py:83-161 | accepted iff the keys are known, the base fields are None or dicts, kvstore is a dict naming a driver, path a string, metadata None or a dict, and the recheck flags None or bools (0 and 1 count); each value is held as given, path defaulting to "" |
| Zarr.EffectivePath | src/pydantic_tensorstore/drivers/zarr.py:167-183 | a falsy store path gives the spec path, an empty spec path gives the store path, otherwise the Zarr join; a non-string store path fails |
| Zarr.EffectivePathComparedWithStripJoin | src/pydantic_tensorstore/drivers/zarr.py:167-183 | the Zarr effective path agrees with the N5 one without seam slashes and differs when both sides have one |
| Zarr.GetZarrMetadataDefaults | src/pydantic_tensorstore/drivers/zarr.py:185-200 | the defaults with every metadata key overriding and every unmentioned default kept |
| Zarr3.ParseZarr3DataType | src/pydantic_tensorstore/drivers/zarr3.py:13-30 | accepted iff the value of one of the sixteen Zarr v3 types, returning that member |
| Zarr3.N5TypesAreZarr3Types | src/pydantic_tensorstore/drivers/zarr3.py:13-30 | every N5 type is a Zarr v3 type; string, json and the 8-bit floats are not; there are sixteen |
| Zarr3.ParseChunkShape | src/pydantic_tensorstore/drivers/zarr3.py:33-46 | accepted iff chunk_shape is missing, None or a list of ints of at least 1; the result holds those ints, and is None iff chunk_shape is missing or null |
| Zarr3.ParseChunkGrid | src/pydantic_tensorstore/drivers/zarr3.py:48-54 | accepted iff a dict whose name, when given, is "regular" and whose configuration is a dict with an accepted chunk shape; the grid holds that shape |
| Zarr3.ParseZarr3Metadata | src/pydantic_tensorstore/drivers/zarr3.py:56-114 | accepted iff zarr_format is 3 and node_type "array" when given, shape is a list of non-negative ints, data_type one of the sixteen, and the optional fields have their declared types; the record holds each value as given or at its default, and every other key as an extra |
| Zarr3.MinimalMetadata | src/pydantic_tensorstore/drivers/zarr3.py:56-114 | a shape and a data type suffice, and everything else takes its default |
| Zarr3.ChunkGridRejections | src/pydantic_tensorstore/drivers/zarr3.py:33-54 | a zero chunk extent and a grid not named "regular" are rejected |
| Zarr3.ParseZarr3Spec | src/pydantic_tensorstore/drivers/zarr3.py:117-125 | accepted iff the driver, when given, is "zarr3" and the metadata is missing, null or accepted metadata; the record holds that parsed metadata, None iff missing or null |
| Zarr3.SpecExamples | src/pydantic_tensorstore/drivers/zarr3.py:33-125 | metadata with shape [0, 5] and uint8 takes every default; a chunk grid with a zero extent is rejected |
| Neuroglancer.ParseNeuroglancerSpec | src/pydantic_tensorstore/drivers/neuroglancer_precomputed.py:13-66 | accepted iff the keys are known (extra keys are forbidden), the base fields are None or dicts, kvstore is a dict, path a string, scale_index None or an int of at least 0, and both metadata fields None or dicts; each value is held as given, path defaulting to "" |
| Neuroglancer.SpecExamples | src/pydantic_tensorstore/drivers/neuroglancer_precomputed.py:13-66 | an unknown key is rejected by name, scale index -1 is rejected, and scale index 0 is kept |
| Neuroglancer.EffectivePathStoreOnly | src/pydantic_tensorstore/drivers/neuroglancer_precomputed.py:68-81 | the store "/data/precomputed/" with an empty driver path gives the store path |
| Neuroglancer.EffectivePathJoined | src/pydantic_tensorstore/drivers/neuroglancer_precomputed.py:68-81 | "/data/precomputed/" and "/scale0" give "/data/precomputed/scale0": one slash at the seam |
| Neuroglancer.EffectivePathDriverOnly | src/pydantic_tensorstore/drivers/neuroglancer_precomputed.py:68-81 | a store without a path gives the driver path |
| KvStore.StrToKvStore | src/pydantic_tensorstore/_kvstore/__init__.py:21-40 | non-strings pass through; a string is accepted iff it starts with file://, memory:// or s3://, and becomes a dict naming a driver |
| KvStore.ParseFileKvStore | src/pydantic_tensorstore/_kvstore/file.py:11-26 | accepted iff only known keys, a string path and no list-valued resource field; the record holds the path and each file_io resource as given (None when missing); unknown keys are named in the error |
| KvStore.ParseMemoryKvStore | src/pydantic_tensorstore/_kvstore/memory.py:9-27 | accepted iff a given path is a string, a given atomic a bool (0 and 1 count) and a given store resource not a list; path, resource and atomic are held as given, or at "", None and true |
| KvStore.ParseKvStore | src/pydantic_tensorstore/_kvstore/__init__.py:21-48 | a shorthand failure, a non-dict and a missing driver are errors; otherwise the result is exactly the file, memory or S3 record parser's result for the dict named by its driver tag, and an unknown tag is an error |
| KvStore.DictAcceptedIff | src/pydantic_tensorstore/_kvstore/__init__.py:43-48 | a dict is accepted iff its driver is "file", "memory" or "s3" and that record accepts it |
| KvStore.FileRoundTrip | src/pydantic_tensorstore/_kvstore/__init__.py:25-26 | "file://p" gives the file store at p with no resources |
| KvStore.MemoryRoundTrip | src/pydantic_tensorstore/_kvstore/__init__.py:27-31 | "memory://p" gives the memory store at p; "memory://" gives a dict without a path |
| KvStore.S3BucketShorthand | src/pydantic_tensorstore/_kvstore/__init__.py:32-39 | "s3://b" without a slash names bucket b and no path |
| KvStore.S3PathShorthand | src/pydantic_tensorstore/_kvstore/__init__.py:32-39 | "s3://b/p" splits at the first slash into bucket b and path p |
| KvStore.S3RoundTrip | src/pydantic_tensorstore/_kvstore/__init__.py:32-48 | both S3 shorthands give the S3 record with every other field at its default |
| KvStore.ShorthandRoundTrip | src/pydantic_tensorstore/_kvstore/__init__.py:21-48 | every store that has a shorthand string parses back from it |
| KvStore.ShorthandRejects | src/pydantic_tensorstore/_kvstore/__init__.py:40 | a string with none of the three schemes is rejected |
| FileKvStore.ValidatePath | src/pydantic_tensorstore/kvstore/file.py:40-56 | non-strings and "" are rejected; otherwise the result is the normalised path, and a normalisation failure is an invalid path |
| FileKvStore.ParseFileKvStoreSpec | src/pydantic_tensorstore/kvstore/file.py:13-56 | accepted iff only driver and path are given, the driver (when given) is "file", and the path validates; the path is stored as validated; unknown keys, another driver and a missing path each give their own error |
| FileKvStore.DriverDefaultsToFile | src/pydantic_tensorstore/kvstore/file.py:31-34 | a missing driver defaults to "file", and "memory" is rejected |
| FileKvStore.RevalidationStable | src/pydantic_tensorstore/kvstore/file.py:40-56 | with an idempotent normaliser, validating a stored path again changes nothing |
| S3KvStore.ParseS3KvStore | src/pydantic_tensorstore/kvstore/s3.py:11-26 | accepted iff bucket is a string, path a string, the two flags bools (0 and 1 count; use_conditional_write may be None), the resource fields context resources, the optional fields strings, and a given endpoint starts with http:// or https://; each value is held as given or at its default |
| S3KvStore.EndpointExamples | src/pydantic_tensorstore/kvstore/s3.py:19 | http and https URLs are endpoints; a bare host, ftp and "https:/x" are not |
| S3KvStore.S3Examples | src/pydantic_tensorstore/kvstore/s3.py:11-26 | requester_pays 1 counts as true, "x" is rejected, and a bucket alone takes every default |
| InternalContext.KindOfName | src/pydantic_tensorstore/_core/context.py:77-101 | a field name maps to the resource kind of that field, and other names to none |
| InternalContext.DefaultResource | src/pydantic_tensorstore/_core/context.py:14-51 | each resource kind's default is a valid resource of that kind |
| InternalContext.ParseResource | src/pydantic_tensorstore/_core/context.py:14-51 | a limit is accepted iff it is a positive int (or null for the cache pool); a missing limit gives the default |
| InternalContext.ResourceRoundTrip | src/pydantic_tensorstore/_core/context.py:14-51 | every valid resource, written out as a dict, validates back to itself |
| InternalContext.ParseSlot | src/pydantic_tensorstore/_core/context.py:77-101 | a slot accepts null, a non-empty resource name or a dict, which stays a dict |
| InternalContext.ParseContext | src/pydantic_tensorstore/_core/context.py:75-101 | a context is accepted iff each given resource field is; missing fields are None; extra keys are kept |
| InternalContext.EmptyContext | src/pydantic_tensorstore/_core/context.py:75-101 | the empty dict gives a context with every slot None and no extras |
| InternalContext.ContextExample | src/pydantic_tensorstore/_core/context.py:67-72 | the documented example keeps its dict slots and leaves the file slot empty |
| Context.ResourceFrom | src/pydantic_tensorstore/core/context.py:111-126 | a resource object is returned; a dict is converted for the four known names; names and None give None |
| Context.CachePoolNonDefaults | src/pydantic_tensorstore/core/context.py:25-28 | the non-default dump is empty iff the cache pool is the default |
| Context.CachePoolDumpEmptyIffDefault | src/pydantic_tensorstore/core/context.py:25-30 | the JSON dump is "{}" iff no byte limit is set |
| Context.Context.constructor | src/pydantic_tensorstore/core/context.py:63-109 | a new context has every resource slot empty and no extra fields |
| Context.Context.CreateDefault | src/pydantic_tensorstore/core/context.py:132-140 | every slot holds its resource at its default |
| Context.Context.Held | src/pydantic_tensorstore/core/context.py:113 | `getattr(self, name, None)`: a declared slot, an extra field, or None |
| Context.Context.GetResource | src/pydantic_tensorstore/core/context.py:111-126 | the resource for the held value; a known name yields a resource of its own kind |
| Context.Context.SetResource | src/pydantic_tensorstore/core/context.py:128-130 | succeeds iff the value fits the declared slot; then only that name changes; a failed assignment changes nothing |
| Context.SetThenGet | src/pydantic_tensorstore/core/context.py:111-130 | after setting a resource object, getting it returns that object |
| Context.DefaultLookups | src/pydantic_tensorstore/core/context.py:132-140 | a default context yields the four defaults (no limit, 4, 4, 32) and None for an unknown name |
| Context.DictLookups | src/pydantic_tensorstore/core/context.py:116-126 | dicts convert for known names and fail on invalid limits; unknown names and resource names give None |
| Errors.MessageParts | src/pydantic_tensorstore/validation/errors.py:38-46 | the message is the last part |
| Errors.ComposeMessageShape | src/pydantic_tensorstore/validation/errors.py:38-47 | the message is "Driver 'd':" when given, then "Field 'f':" when given, then the text, separated by spaces |
| Errors.ComposeMessageBare | src/pydantic_tensorstore/validation/errors.py:38-47 | with no driver and no field path the message is the text itself |
| Errors.NewError | src/pydantic_tensorstore/validation/errors.py:14-47 | the error keeps its field path, data and driver, and composes its message |
| Errors.NewDriverError | src/pydantic_tensorstore/validation/errors.py:54-70 | a driver error always names its driver in the message |
| Errors.NewSchemaError | src/pydantic_tensorstore/validation/errors.py:73-87 | a schema error has no driver and keeps the schema as its data |
| Errors.NewKvStoreError | src/pydantic_tensorstore/validation/errors.py:90-106 | a store error names the store driver and keeps the store data |
| Errors.NewTransformError | src/pydantic_tensorstore/validation/errors.py:109-123 | a transform error has no driver and keeps the transform data |
| Errors.NewContextError | src/pydantic_tensorstore/validation/errors.py:126-145 | a context error prefixes "Context resource 'r':" when a resource name is given |
| Errors.DriverErrorExample | src/pydantic_tensorstore/validation/errors.py:38-70 | "Driver 'n5': Field 'dtype': bad" for a driver error at field dtype; an empty field path is left out of the message |
| DriverSpec.FirstMisshapedBaseField | src/pydantic_tensorstore/core/spec.py:45-59 | none iff every given context, schema and transform is None or a dict; otherwise it names one that is neither |
| DriverSpec.BaseFieldValues | src/pydantic_tensorstore/core/spec.py:45-59 | exactly the base fields the dictionary gives, with their values |
| Validators.N5DtypeCheck | src/pydantic_tensorstore/validation/validators.py:163-183 | fails iff the driver is n5 and a truthy dtype is not one of the ten N5 names; the failure is a driver error at schema.dtype |
| Validators.DomainRankCheck | src/pydantic_tensorstore/validation/validators.py:185-194 | with a falsy domain or rank nothing is checked; otherwise the shape length must equal the rank |
| Validators.SchemaCheck | src/pydantic_tensorstore/validation/validators.py:160-194 | a dict schema runs the dtype check and then the rank check; a non-dict cannot be read |
| Validators.TransformCheck | src/pydantic_tensorstore/validation/validators.py:197-210 | fails iff both ranks are set and differ (by Python `==`), reported at field transform |
| Validators.DriverCheck | src/pydantic_tensorstore/validation/validators.py:225-256 | fails iff the driver is zarr, zarr3 or n5 and the kvstore is falsy, as a driver error at field kvstore |
| Validators.CrossFieldCheck | src/pydantic_tensorstore/validation/validators.py:131-157 | without a truthy driver nothing is checked; otherwise the result is the first failing check in the order schema (for a truthy schema), transform (for a truthy transform and schema), driver; when the first two pass it is the driver check, so all applicable checks passing gives a pass |
| Validators.Wrap | src/pydantic_tensorstore/validation/validators.py:64-72 | errors of the validation family pass through; others are wrapped with the spec data |
| Validators.ValidateSpecDict | src/pydantic_tensorstore/validation/validators.py:24-72 | accepted iff basic validation passes, then the cross-field checks when strict, then the library check when requested; it returns the normalised dict |
| Validators.NonStrictSkipsCrossField | src/pydantic_tensorstore/validation/validators.py:54-56 | non-strict validation accepts whatever basic validation accepts |
| Validators.ValidateSpec | src/pydantic_tensorstore/validation/validators.py:75-128 | a dict: a validation error propagates, otherwise the result is the parse of the validated dict, or "Failed to parse specification: …" carrying the original dict; a parsed spec is returned itself unless the requested validation of its dump fails, which returns that error; any other input fails with "Invalid spec type" |
| Validators.N5SchemaDtypeRejected | src/pydantic_tensorstore/validation/validators.py:163-183 | an n5 spec with a non-N5 schema dtype fails at schema.dtype naming driver n5 |
| Validators.KvStoreRequired | src/pydantic_tensorstore/validation/validators.py:225-256 | a zarr, zarr3 or n5 spec with a falsy kvstore fails with "<Driver> driver requires kvstore specification" |
| Validators.DomainRankMismatch | src/pydantic_tensorstore/validation/validators.py:185-194 | a domain shape whose length differs from the schema rank fails at field schema |
| Builders.Put | src/pydantic_tensorstore/utils/builders.py:47-58 | nested assignment creating missing dicts adds the first key and leaves other top-level keys alone |
| Builders.PutThenLookup | src/pydantic_tensorstore/utils/builders.py:47-58 | after a nested assignment the path holds the value |
| Builders.PutLeavesOtherPaths | src/pydantic_tensorstore/utils/builders.py:47-58 | a nested assignment leaves every path that is not an extension or prefix of it unchanged |
| Builders.PutKeepsSiblings | src/pydantic_tensorstore/utils/builders.py:92-96 | setting schema.x keeps the other entries of the schema dict |
| Builders.RemoveFileScheme | src/pydantic_tensorstore/utils/builders.py:70 | `replace("file://", "")` never lengthens a string |
| Builders.RemoveFileSchemeFacts | src/pydantic_tensorstore/utils/builders.py:70 | without "file://" the string is unchanged, and a leading "file://" is dropped |
| Builders.GeneralKvStore | src/pydantic_tensorstore/utils/builders.py:61-80 | "memory" is a memory store; "/..." or "file://..." a file store with the scheme removed; any other string a bare driver name; a dict is kept |
| Builders.DriverKvStore | src/pydantic_tensorstore/utils/builders.py:196-210 | "memory" is a memory store, any other string a file store at that path, and a dict is kept |
| Builders.FileUrlFormsDisagree | src/pydantic_tensorstore/utils/builders.py:61-80 | the general builder strips file:// but the Zarr and N5 builders keep it in the path |
| Builders.DriverNameFormsDisagree | src/pydantic_tensorstore/utils/builders.py:61-80 | "gcs" is a driver name for the general builder and a file path for the Zarr and N5 builders |
| Builders.CompressionPath | src/pydantic_tensorstore/utils/builders.py:99-115 | zarr puts metadata.compressor, n5 metadata.compression, and any other driver schema.codec |
| Builders.CompressionTargets | src/pydantic_tensorstore/utils/builders.py:99-115 | after `compression` the setting sits at that driver's location |
| Builders.SpecBuilder.constructor | src/pydantic_tensorstore/utils/builders.py:36-38 | a new builder holds an empty dict |
| Builders.SpecBuilder.Driver | src/pydantic_tensorstore/utils/builders.py:40-43 | sets driver and returns the same builder |
| Builders.SpecBuilder.Dtype | src/pydantic_tensorstore/utils/builders.py:45-50 | sets schema.dtype, creating schema when missing |
| Builders.SpecBuilder.Shape | src/pydantic_tensorstore/utils/builders.py:52-59 | sets schema.domain.shape, creating both dicts when missing |
| Builders.SpecBuilder.KvStore | src/pydantic_tensorstore/utils/builders.py:61-80 | sets kvstore to the store the argument stands for |
| Builders.SpecBuilder.Context | src/pydantic_tensorstore/utils/builders.py:82-88 | sets context |
| Builders.SpecBuilder.ChunkShape | src/pydantic_tensorstore/utils/builders.py:90-97 | sets schema.chunk_layout.chunk_shape, creating both dicts when missing |
| Builders.SpecBuilder.Compression | src/pydantic_tensorstore/utils/builders.py:99-115 | sets compression at the location chosen by the current driver |
| Builders.SpecBuilder.Path | src/pydantic_tensorstore/utils/builders.py:117-120 | sets path |
| Builders.SpecBuilder.Metadata | src/pydantic_tensorstore/utils/builders.py:122-125 | replaces metadata |
| Builders.SpecBuilder.Build | src/pydantic_tensorstore/utils/builders.py:127-129 | parses the collected dict |
| Builders.SpecBuilder.BuildDict | src/pydantic_tensorstore/utils/builders.py:131-133 | returns the collected dict |
| Builders.ArraySpecBuilder.constructor | src/pydantic_tensorstore/utils/builders.py:147-149 | starts from {"driver": "array"} |
| Builders.ArraySpecBuilder.Array | src/pydantic_tensorstore/utils/builders.py:151-154 | sets array |
| Builders.ArraySpecBuilder.Dtype | src/pydantic_tensorstore/utils/builders.py:156-159 | sets dtype at the top level |
| Builders.ArraySpecBuilder.DataCopyConcurrency | src/pydantic_tensorstore/utils/builders.py:161-164 | sets data_copy_concurrency |
| Builders.ArraySpecBuilder.Context | src/pydantic_tensorstore/utils/builders.py:166-172 | sets context |
| Builders.ArraySpecBuilder.Build | src/pydantic_tensorstore/utils/builders.py:174-176 | the result is the array driver's parse of the collected dict |
| Builders.ZarrSpecBuilder.constructor | src/pydantic_tensorstore/utils/builders.py:192-194 | starts from {"driver": "zarr"} |
| Builders.ZarrSpecBuilder.KvStore | src/pydantic_tensorstore/utils/builders.py:196-210 | sets kvstore to the store the argument stands for in the Zarr and N5 builders |
| Builders.ZarrSpecBuilder.Path | src/pydantic_tensorstore/utils/builders.py:212-215 | sets path |
| Builders.ZarrSpecBuilder.Chunks | src/pydantic_tensorstore/utils/builders.py:217-222 | sets metadata.chunks, creating metadata when missing |
| Builders.ZarrSpecBuilder.Compression | src/pydantic_tensorstore/utils/builders.py:224-229 | sets metadata.compressor |
| Builders.ZarrSpecBuilder.FillValue | src/pydantic_tensorstore/utils/builders.py:231-236 | sets metadata.fill_value |
| Builders.ZarrSpecBuilder.Order | src/pydantic_tensorstore/utils/builders.py:238-243 | sets metadata.order |
| Builders.ZarrSpecBuilder.Filters | src/pydantic_tensorstore/utils/builders.py:245-250 | sets metadata.filters |
| Builders.ZarrSpecBuilder.Build | src/pydantic_tensorstore/utils/builders.py:252-254 | the result is the Zarr driver's parse of the collected dict |
| Builders.N5SpecBuilder.constructor | src/pydantic_tensorstore/utils/builders.py:272-274 | starts from {"driver": "n5"} |
| Builders.N5SpecBuilder.KvStore | src/pydantic_tensorstore/utils/builders.py:276-290 | sets kvstore as the Zarr builder does |
| Builders.N5SpecBuilder.Path | src/pydantic_tensorstore/utils/builders.py:292-295 | sets path |
| Builders.N5SpecBuilder.Dimensions | src/pydantic_tensorstore/utils/builders.py:297-302 | sets metadata.dimensions, creating metadata when missing |
| Builders.N5SpecBuilder.BlockSize | src/pydantic_tensorstore/utils/builders.py:304-309 | sets metadata.blockSize |
| Builders.N5SpecBuilder.DataType | src/pydantic_tensorstore/utils/builders.py:311-316 | sets metadata.dataType |
| Builders.N5SpecBuilder.Compression | src/pydantic_tensorstore/utils/builders.py:318-323 | sets metadata.compression |
| Builders.N5SpecBuilder.Axes | src/pydantic_tensorstore/utils/builders.py:325-330 | sets metadata.axes |
| Builders.N5SpecBuilder.Resolution | src/pydantic_tensorstore/utils/builders.py:332-337 | sets metadata.resolution |
| Builders.N5SpecBuilder.Build | src/pydantic_tensorstore/utils/builders.py:339-341 | the result is the N5 driver's parse of the collected dict |
| Builders.ChainExample | src/pydantic_tensorstore/utils/builders.py:26-33 | the documented chain gives the expected nested dict |
| Builders.DriverBuilderExamples | src/pydantic_tensorstore/utils/builders.py:183-341 | a Zarr builder on "memory" builds a Zarr spec on a memory store; an N5 builder on a directory with a path builds an N5 spec on a file store there |
| Introspection.NestedListShapeFollowsFirstElements | src/pydantic_tensorstore/utils/introspection.py:306-317 | entry i of the shape is the length of the list reached by i first-element steps |
| Introspection.NestedListShapeIsArrayShape | src/pydantic_tensorstore/utils/introspection.py:306-317 | the introspection shape equals the array driver's `get_shape` |
| Introspection.GetDriverCapabilities | src/pydantic_tensorstore/utils/introspection.py:106-233 | an unknown driver has no capabilities; the chunked drivers support chunking and compression |
| Introspection.CapabilityTable | src/pydantic_tensorstore/utils/introspection.py:133-231 | array supports every DataType; n5 exactly the ten N5 names; neuroglancer five types |
| Introspection.GetCompatibleDrivers | src/pydantic_tensorstore/utils/introspection.py:263-303 | the loop keeps exactly the drivers that the specification function `Filter` keeps |
| Introspection.FilterIsSubsequence | src/pydantic_tensorstore/utils/introspection.py:283-303 | the result is a subsequence of the registered drivers, in their order |
| Introspection.FilterMembership | src/pydantic_tensorstore/utils/introspection.py:283-303 | a driver is returned iff it is registered and meets every requirement |
| Introspection.FilterExamples | src/pydantic_tensorstore/utils/introspection.py:283-303 | no requirements keep every driver; a driver without capabilities meets no dtype requirement |
| Introspection.SummariseSchema | src/pydantic_tensorstore/utils/introspection.py:44-59 | fails iff a schema dict's domain shape is truthy but has no `len`; a non-empty dict gives its dtype, its domain's shape and that shape's length as rank; a schema object gives its dtype text and its domain's shape and rank; no schema gives nothing |
| Introspection.GetSpecInfo | src/pydantic_tensorstore/utils/introspection.py:11-103 | with the schema read from the `schema_` field: fails iff a `len` fails; driver, kind and hasKvstore as in the spec; the storage backend from a dict store; the dtype from the schema; the shape and rank from the schema dict's domain or the schema object, overridden by a nested list or by zarr3/n5 metadata; compressor before compression |
| Introspection.GetSpecInfoAsWritten | src/pydantic_tensorstore/utils/introspection.py:32-59 | as written the summary always raises: `get_driver_kind` is missing on most specs, and `spec.schema` is the pydantic classmethod, which has no `dtype` |
| Introspection.GetSpecInfoFinding | src/pydantic_tensorstore/utils/introspection.py:11-68 | on a Zarr spec with schema dtype "uint8" on a memory store, the as-written summary raises while the corrected one reports uint8 and memory |
| Conversion.Merged | src/pydantic_tensorstore/utils/conversion.py:172-181 | the merged keys are the union of both dicts' keys |
| Conversion.MergeDicts | src/pydantic_tensorstore/utils/conversion.py:172-181 | the loop builds exactly the specification function `Merged` |
| Conversion.MergePrecedence | src/pydantic_tensorstore/utils/conversion.py:172-181 | an override key wins unless both values are nested dicts; a key only in the base keeps the base value |
| Conversion.NestedMergePrecedence | src/pydantic_tensorstore/utils/conversion.py:176-181 | schema, context and metadata dicts merge one level deep, with the override winning inside |
| Conversion.MergeIdentity | src/pydantic_tensorstore/utils/conversion.py:172-181 | merging with the empty dict on either side changes nothing |
| Conversion.MergeSpecs | src/pydantic_tensorstore/utils/conversion.py:151-183 | normalisation errors propagate; otherwise the result is `spec_from_dict` of the merged dict, with validation and strict checks |
| Conversion.WithoutFields | src/pydantic_tensorstore/utils/conversion.py:208-211 | popping the ignored fields keeps every other key and its value |
| Conversion.SpecsEqualReflexiveSymmetric | src/pydantic_tensorstore/utils/conversion.py:186-213 | comparison is reflexive and symmetric |
| Conversion.NestedFillValueCompare | src/pydantic_tensorstore/utils/conversion.py:208-213 | two specs differing only in a nested value compare equal iff the two values are equal under Python `==` |
| Conversion.NumbersCompareByValue | src/pydantic_tensorstore/utils/conversion.py:208-213 | 0, 0.0 and False compare equal inside nested dicts, and "0" does not |
| Conversion.IgnoringAbsentField | src/pydantic_tensorstore/utils/conversion.py:208-213 | ignoring one more field that neither dict has changes nothing, and with no ignored fields comparison is Python `==` of the two dicts |
| Conversion.CompareSpecs | src/pydantic_tensorstore/utils/conversion.py:186-213 | normalisation errors propagate; otherwise the result is Python `==` of the two dicts without the ignored fields |
| Conversion.SpecFromDict | src/pydantic_tensorstore/utils/conversion.py:40-64 | without validation the dict is only parsed, and a parse failure is reported as such; with validation the result is exactly what the full validator returns for the dict |
| Conversion.NoValidateBypassesChecks | src/pydantic_tensorstore/utils/conversion.py:61-64 | a dict that parses but fails the cross-field checks is accepted without validation and rejected with it |

## Left out

- **I/O and the TensorStore library.** `_validate_with_tensorstore` imports and calls the tensorstore package; it is the `library` parameter of `Validators.ValidateSpecDict`.
- **Parameters for code outside the model.** The following are passed in as parameters:
  - `SpecValidator.validate_spec`, as `basic`;
  - `TensorStoreSpec.model_validate` and `model_dump`, as `parse` and `dump`;
  - `normalize_spec`, as `normalize`;
  - the registered-driver list, as `registered`.
  The spec union lives in core/spec.py, which is not part of this model.
- **Functions left out.**
  - `list_registered_drivers` and `validate_driver_exists` only forward to `SpecValidator` in core/spec.py.
  - `spec_to_dict`, `spec_to_json`, `spec_from_json` and `normalize_spec` are pydantic serialisation.
- **Number handling.**
  - Floating point is modelled by `real`.
  - Rendering and parsing floats, and `int()` of a string, are parameters.
  - Pydantic's lax coercion of numeric strings and floats into int fields is not modelled. Only ints and bools count as ints.
  - Pydantic's lax bool also accepts strings such as "true", "yes" and "off", and the floats 0.0 and 1.0. Only bools and the ints 0 and 1 count as bools.
- InternalN5.ParseBlosc: shuffle is a `Literal[0, 1, 2]`, which is treated like the int fields, so a bool counts as 0 or 1.
- **Numpy.**
  - The array driver's numpy branch is the `asList` parameter.
  - The second-draft array is modelled by its shape alone.
  - `to_numpy` is left out.
- **Aliasing.**
  - Builders hold their dictionary as a value.
  - A dict passed to `kvstore`, `context` or `metadata` and later mutated by the caller is not tracked.
  - `build_dict`'s shallow copy is therefore not distinguished from the original.
  - Identity (`is`) is modelled as value equality.
- **Dtype text.** `types.common.DataType`, used by the builders and introspection, is not part of this model. There, dtype arguments are the strings that `str(dtype)` gives.
- Introspection.CapabilityTable: the array driver's list is built from the `_types.DataType` enum, which has 25 members. The source iterates `types.common.DataType`, which is not part of this model, so the count 25 holds only if the two enums agree.
- **Context union fields.**
  - A dict given for a context resource field is kept as a dict, following pydantic's smart-union exact-type preference. Its limits are validated only by `get_resource`.
  - The `ContextResource` base of the first-draft context resources lives in types.common, which is not part of this model. The resource records are modelled with just their declared limits.
- **Base key-value store.** The second-draft `BaseKvStore` is imported from a module this model does not include. The store `path` field with default "" that the memory and S3 records carry is assumed from its documentation.
- **Import mismatches.** These are modelled as if the imports resolved:
  - several modules import names that the kvstore packages do not define (`MemoryKvStoreSpec` has no path field; `ChunkedTensorStoreKvStoreAdapterSpec`);
  - the Neuroglancer driver imports `KvStore`;
  - kvstore/s3.py imports `BaseKvStore` from kvstore/base.py, which defines only `BaseKvStoreSpec` (with extra keys forbidden).
- S3KvStore.ParseS3KvStore: keys it does not declare are ignored. Its base class does not resolve, so its policy for extra keys is unknown; ignoring them is a modelling choice.
- **Unreachable IndexTransform branches.** The "Inconsistent input/output rank" branches of `IndexTransform.model_post_init` cannot be reached, because the rank they compare against is derived from the same field, so they are not modelled.
- **`_validate_array_consistency` in validation/validators.py.** It returns without checking anything, so `Validators.CrossFieldCheck` does nothing for the array driver.
- **Base fields.** The first-draft base record declares context, schema and transform (core/spec.py:45-59). Each parser checks that a given one is None or a dict. The N5 and Zarr metadata records keep them apart from their extras. Their contents are not validated against the Context, Schema and IndexTransform records, which have no dictionary parsers in this model.
- N5.ParseN5Metadata: base fields are checked to be None or dicts; their contents are not validated.
- N5.ParseN5Spec: base fields are checked to be None or dicts; their contents are not validated.
- Zarr.ParseZarrMetadata: base fields are checked to be None or dicts; their contents are not validated.
- Zarr.ParseZarrSpec: base fields are checked to be None or dicts; their contents are not validated.
- Array.ParseArraySpec: base fields are checked to be None or dicts; their contents are not validated.
- Neuroglancer.ParseNeuroglancerSpec: its base, `ChunkedTensorStoreKvStoreAdapterSpec`, is not defined in core/spec.py. It is taken to be the first-draft base record: known fields, the three base fields, no extra keys.
- Zarr3.ParseZarr3Spec: keys other than driver and metadata are ignored. Its base, `ChunkedTensorStoreKvStoreAdapterSpec`, is not defined in core/spec.py, so that base's fields and its policy for extra keys are unknown.
- Zarr3.ParseZarr3Metadata: for the same undefined base, keys other than its declared fields are kept as extras and the base's own fields are not checked.
- **String semantics.** Strings are sequences of characters. There is no Unicode case folding or normalisation.
- Schema.UnitTextRoundTrip: assumes that the float rendering parses back and contains no ASCII letters. Python's `repr` of a float gives "inf", "nan" and "1e-05", which break the round trip. The assumption is stated as a `requires`.
- Validators.DomainRankCheck: states the comparison only when the shape is a non-empty list, and the kind of failure otherwise. A `len` of a value without one raises, and the model reports that as a non-family failure.
- Introspection.GetSpecInfo: a numpy array (the `hasattr(array_data, "shape")` branch) is not modelled; array data is a nested list. A store record is given by its dictionary, and a schema object by its dtype text and domain.
- Schema.MatchUnitPatternIff, Schema.ParseUnitString: `\d` is the `isDigit` parameter. The model pins it down only on ASCII characters; the table of Unicode decimal digits is not part of the model.

## Findings

| source | as written | input that shows it | evidently intended | confidence | as-written member | corrected member |
|---|---|---|---|---|---|---|
| src/pydantic_tensorstore/utils/introspection.py:34-56 | `spec.get_driver_kind()` exists only on the Zarr spec. The schema field is declared as `schema_` with the alias "schema" (core/spec.py:50-54), so `spec.schema` is pydantic's deprecated `BaseModel.schema` classmethod. That is truthy and not a dict, so `schema.dtype` raises AttributeError | `get_spec_info` of a Zarr spec on a memory store whose schema has dtype uint8 | read the `schema_` field and report its dtype, shape and rank | not executed | Introspection.GetSpecInfoAsWritten | Introspection.GetSpecInfo |
