/**
 * Chunk layouts: the write/read/codec chunk-grid constraints with their list-length
 * consistency check, and the layout-level rank bound, inner-order permutation check and
 * grid-origin length check.
 */
module ChunkLayout {
  import opened Wrappers

  datatype ChunkLayoutError =
    | InconsistentLengths(names: seq<string>, lengths: seq<nat>)
    | RankRequired(field: string)
    | NotAPermutation(field: string, rank: int, order: seq<int>)
    | OriginLength(field: string, length: nat, rank: int)
    | FieldOutOfBounds(field: string)

  // ---------------------------------------------------------------- ChunkLayoutGrid

  /** A grid `shape` field: null, the literal -1 (full extent), or a list of sizes. */
  datatype GridShape = NoShape | FullExtent | Sizes(sizes: seq<int>)

  datatype ChunkLayoutGrid = ChunkLayoutGrid(
    shape: GridShape,
    shapeSoftConstraint: GridShape,
    aspectRatio: Option<seq<real>>,
    aspectRatioSoftConstraint: Option<seq<real>>,
    elements: Option<int>,
    elementsSoftConstraint: Option<int>)

  /** Field constraints: sizes and ratios are non-negative, element counts at least 1. */
  predicate GridFieldsInBounds(g: ChunkLayoutGrid)
  {
    (g.shape.Sizes? ==> forall i :: 0 <= i < |g.shape.sizes| ==> g.shape.sizes[i] >= 0)
    && (g.shapeSoftConstraint.Sizes? ==> forall i :: 0 <= i < |g.shapeSoftConstraint.sizes| ==> g.shapeSoftConstraint.sizes[i] >= 0)
    && (g.aspectRatio.Some? ==> forall i :: 0 <= i < |g.aspectRatio.value| ==> g.aspectRatio.value[i] >= 0.0)
    && (g.aspectRatioSoftConstraint.Some? ==>
          forall i :: 0 <= i < |g.aspectRatioSoftConstraint.value| ==> g.aspectRatioSoftConstraint.value[i] >= 0.0)
    && (g.elements.Some? ==> g.elements.value >= 1)
    && (g.elementsSoftConstraint.Some? ==> g.elementsSoftConstraint.value >= 1)
  }

  /** The list-valued grid fields, in the order the length check visits them. */
  datatype GridField = ShapeList | ShapeSoftList | AspectRatioList | AspectRatioSoftList

  const GridListFields: seq<GridField> := [ShapeList, ShapeSoftList, AspectRatioList, AspectRatioSoftList]

  function GridFieldName(f: GridField): string
  {
    match f
    case ShapeList => "shape"
    case ShapeSoftList => "shape_soft_constraint"
    case AspectRatioList => "aspect_ratio"
    case AspectRatioSoftList => "aspect_ratio_soft_constraint"
  }

  /** The length of a grid field when it holds a list; None for null and for -1. */
  function GridListLength(g: ChunkLayoutGrid, f: GridField): Option<nat>
  {
    match f
    case ShapeList => if g.shape.Sizes? then Some(|g.shape.sizes|) else None
    case ShapeSoftList => if g.shapeSoftConstraint.Sizes? then Some(|g.shapeSoftConstraint.sizes|) else None
    case AspectRatioList => if g.aspectRatio.Some? then Some(|g.aspectRatio.value|) else None
    case AspectRatioSoftList =>
      if g.aspectRatioSoftConstraint.Some? then Some(|g.aspectRatioSoftConstraint.value|) else None
  }

  /** The lengths of the list-valued fields among `fields`, in order. */
  function PresentLengths(g: ChunkLayoutGrid, fields: seq<GridField>): seq<nat>
  {
    if fields == [] then []
    else
      var last := fields[|fields| - 1];
      var init := PresentLengths(g, fields[..|fields| - 1]);
      if GridListLength(g, last).Some? then init + [GridListLength(g, last).value] else init
  }

  /** The names of the list-valued fields among `fields`, in order. */
  function PresentNames(g: ChunkLayoutGrid, fields: seq<GridField>): (r: seq<string>)
    ensures |r| == |PresentLengths(g, fields)|
  {
    if fields == [] then []
    else
      var last := fields[|fields| - 1];
      var init := PresentNames(g, fields[..|fields| - 1]);
      if GridListLength(g, last).Some? then init + [GridFieldName(last)] else init
  }

  /** A length is collected iff some visited field holds a list of that length. */
  lemma {:induction false} PresentLengthsMembers(g: ChunkLayoutGrid, fields: seq<GridField>, x: nat)
    ensures x in PresentLengths(g, fields) <==> exists i :: 0 <= i < |fields| && GridListLength(g, fields[i]) == Some(x)
  {
    if fields != [] {
      var init := fields[..|fields| - 1];
      PresentLengthsMembers(g, init, x);
      assert forall i :: 0 <= i < |init| ==> init[i] == fields[i];
      if exists i :: 0 <= i < |fields| && GridListLength(g, fields[i]) == Some(x) {
        var i :| 0 <= i < |fields| && GridListLength(g, fields[i]) == Some(x);
        if i < |init| {
          assert GridListLength(g, init[i]) == Some(x);
        }
      }
    }
  }

  /** All list-valued grid fields have the same length. */
  predicate GridLengthsConsistent(g: ChunkLayoutGrid)
  {
    forall i, j :: 0 <= i < |GridListFields| && 0 <= j < |GridListFields|
                   && GridListLength(g, GridListFields[i]).Some? && GridListLength(g, GridListFields[j]).Some? ==>
                   GridListLength(g, GridListFields[i]) == GridListLength(g, GridListFields[j])
  }

  /** `set(arrays)`. */
  function DistinctLengths(lengths: seq<nat>): set<nat>
  {
    set k | k in lengths
  }

  /** Every entry of `lengths` is equal to every other. */
  predicate AllEqual(lengths: seq<nat>)
  {
    forall i, j :: 0 <= i < |lengths| && 0 <= j < |lengths| ==> lengths[i] == lengths[j]
  }

  /** A sequence of lengths has at most one distinct value iff all its entries are equal. */
  lemma {:induction false} FewDistinctIffAllEqual(lengths: seq<nat>)
    ensures |DistinctLengths(lengths)| <= 1 <==> AllEqual(lengths)
  {
    var distinct := DistinctLengths(lengths);
    if AllEqual(lengths) {
      if |lengths| > 0 {
        forall x | x in distinct ensures x == lengths[0] {
          var i :| 0 <= i < |lengths| && lengths[i] == x;
        }
        assert lengths[0] in distinct;
        assert distinct == {lengths[0]};
        assert |distinct| == 1;
      } else {
        assert distinct == {};
      }
    } else {
      var i, j :| 0 <= i < |lengths| && 0 <= j < |lengths| && lengths[i] != lengths[j];
      assert {lengths[i], lengths[j]} <= distinct;
      assert |{lengths[i], lengths[j]}| == 2;
      SubsetCardinality({lengths[i], lengths[j]}, distinct);
    }
  }

  lemma SubsetCardinality(a: set<nat>, b: set<nat>)
    requires a <= b
    ensures |a| <= |b|
  {
    assert b == a + (b - a);
  }

  /** Equal collected lengths mean that any two list-valued fields agree. */
  lemma CollectedEqualConsistent(g: ChunkLayoutGrid)
    requires AllEqual(PresentLengths(g, GridListFields))
    ensures GridLengthsConsistent(g)
  {
    var ls := PresentLengths(g, GridListFields);
    forall i, j | 0 <= i < |GridListFields| && 0 <= j < |GridListFields|
                  && GridListLength(g, GridListFields[i]).Some? && GridListLength(g, GridListFields[j]).Some?
      ensures GridListLength(g, GridListFields[i]) == GridListLength(g, GridListFields[j])
    {
      var x, y := GridListLength(g, GridListFields[i]).value, GridListLength(g, GridListFields[j]).value;
      PresentLengthsMembers(g, GridListFields, x);
      PresentLengthsMembers(g, GridListFields, y);
      var p :| 0 <= p < |ls| && ls[p] == x;
      var q :| 0 <= q < |ls| && ls[q] == y;
    }
  }

  /** Consistent list fields give equal collected lengths. */
  lemma ConsistentCollectedEqual(g: ChunkLayoutGrid)
    requires GridLengthsConsistent(g)
    ensures AllEqual(PresentLengths(g, GridListFields))
  {
    var ls := PresentLengths(g, GridListFields);
    forall i, j | 0 <= i < |ls| && 0 <= j < |ls| ensures ls[i] == ls[j] {
      PresentLengthsMembers(g, GridListFields, ls[i]);
      PresentLengthsMembers(g, GridListFields, ls[j]);
      var p :| 0 <= p < |GridListFields| && GridListLength(g, GridListFields[p]) == Some(ls[i]);
      var q :| 0 <= q < |GridListFields| && GridListLength(g, GridListFields[q]) == Some(ls[j]);
    }
  }

  /** The collected lengths are all equal iff the grid's list fields agree in length. */
  lemma CollectedLengthsAgree(g: ChunkLayoutGrid)
    ensures AllEqual(PresentLengths(g, GridListFields)) <==> GridLengthsConsistent(g)
  {
    if AllEqual(PresentLengths(g, GridListFields)) {
      CollectedEqualConsistent(g);
    }
    if GridLengthsConsistent(g) {
      ConsistentCollectedEqual(g);
    }
  }

  /**
   * `_validate_array_lengths_consistent`: collect the names and lengths of the list-valued
   * fields and reject when the lengths take more than one value; a consistent grid is
   * returned unchanged.
   */
  method CheckGridLengths(g: ChunkLayoutGrid) returns (r: Result<ChunkLayoutGrid, ChunkLayoutError>)
    ensures r.Ok? <==> GridLengthsConsistent(g)
    ensures r.Ok? ==> r.value == g
    ensures r.Err? ==> r.error == InconsistentLengths(PresentNames(g, GridListFields), PresentLengths(g, GridListFields))
  {
    var arrays: seq<nat> := [];
    var arrayNames: seq<string> := [];
    var i := 0;
    while i < |GridListFields|
      invariant 0 <= i <= |GridListFields|
      invariant arrays == PresentLengths(g, GridListFields[..i])
      invariant arrayNames == PresentNames(g, GridListFields[..i])
    {
      var value := GridListLength(g, GridListFields[i]);
      assert GridListFields[..i + 1][..i] == GridListFields[..i];
      if value.Some? {
        arrays := arrays + [value.value];
        arrayNames := arrayNames + [GridFieldName(GridListFields[i])];
      }
      i := i + 1;
    }
    assert GridListFields[..i] == GridListFields;
    FewDistinctIffAllEqual(arrays);
    CollectedLengthsAgree(g);
    if |DistinctLengths(arrays)| > 1 {
      return Err(InconsistentLengths(arrayNames, arrays));
    }
    return Ok(g);
  }

  // ---------------------------------------------------------------- inner_order permutation

  predicate Sorted(s: seq<int>)
  {
    forall i, j :: 0 <= i < j < |s| ==> s[i] <= s[j]
  }

  predicate Distinct(s: seq<int>)
  {
    forall i, j :: 0 <= i < j < |s| ==> s[i] != s[j]
  }

  /** `list(range(n))`, which is empty for n <= 0. */
  function Range(n: int): (r: seq<int>)
    ensures |r| == if n <= 0 then 0 else n
    ensures forall i :: 0 <= i < |r| ==> r[i] == i
  {
    if n <= 0 then [] else seq(n, i => i)
  }

  /** Insert `x` before the first element not smaller than it. */
  function Insert(x: int, s: seq<int>): seq<int>
  {
    if s == [] || x <= s[0] then [x] + s else [s[0]] + Insert(x, s[1..])
  }

  /** Python's `sorted` on a list of ints (an insertion sort). */
  function SortInts(v: seq<int>): seq<int>
  {
    if v == [] then [] else Insert(v[0], SortInts(v[1..]))
  }

  /** Inserting adds exactly `x`. */
  lemma {:induction false} InsertMultiset(x: int, s: seq<int>)
    ensures multiset(Insert(x, s)) == multiset(s) + multiset{x}
  {
    if s != [] && x > s[0] {
      InsertMultiset(x, s[1..]);
      assert s == [s[0]] + s[1..];
    }
  }

  /** A lower bound of `x` and of every element of `s` bounds every element of the insertion. */
  lemma {:induction false} InsertLowerBound(x: int, s: seq<int>, b: int)
    requires b <= x
    requires forall k :: 0 <= k < |s| ==> b <= s[k]
    ensures forall k :: 0 <= k < |Insert(x, s)| ==> b <= Insert(x, s)[k]
  {
    if s != [] && x > s[0] {
      InsertLowerBound(x, s[1..], b);
    }
  }

  /** Inserting into a sorted sequence keeps it sorted and adds exactly `x`. */
  lemma {:induction false} InsertSorted(x: int, s: seq<int>)
    requires Sorted(s)
    ensures Sorted(Insert(x, s))
    ensures multiset(Insert(x, s)) == multiset(s) + multiset{x}
  {
    InsertMultiset(x, s);
    if s == [] || x <= s[0] {
      var r := [x] + s;
      forall i, j | 0 <= i < j < |r| ensures r[i] <= r[j] {
        if i > 0 {
          assert r[i] == s[i - 1] && r[j] == s[j - 1];
        } else if j > 1 {
          assert s[0] <= s[j - 1];
        }
      }
    } else {
      var rest := Insert(x, s[1..]);
      InsertSorted(x, s[1..]);
      InsertLowerBound(x, s[1..], s[0]);
      var r := [s[0]] + rest;
      forall i, j | 0 <= i < j < |r| ensures r[i] <= r[j] {
        if i > 0 {
          assert r[i] == rest[i - 1] && r[j] == rest[j - 1];
        } else {
          assert r[j] == rest[j - 1];
        }
      }
    }
  }

  /** `sorted` returns a sorted permutation of its input. */
  lemma {:induction false} SortIntsSorted(v: seq<int>)
    ensures Sorted(SortInts(v))
    ensures multiset(SortInts(v)) == multiset(v)
    ensures |SortInts(v)| == |v|
  {
    if v != [] {
      assert v == [v[0]] + v[1..];
      SortIntsSorted(v[1..]);
      InsertSorted(v[0], SortInts(v[1..]));
      assert |SortInts(v)| == |multiset(SortInts(v))|;
    }
  }

  /** The head of a sorted sequence is at most any of its elements. */
  lemma HeadIsMinimum(a: seq<int>, x: int)
    requires Sorted(a) && x in multiset(a)
    ensures a[0] <= x
  {
    assert x in a;
    var k :| 0 <= k < |a| && a[k] == x;
    if k > 0 {
      assert a[0] <= a[k];
    }
  }

  /** Removing the head of a sequence removes one occurrence of it from the multiset. */
  lemma TailMultiset(a: seq<int>)
    requires a != []
    ensures multiset(a[1..]) == multiset(a) - multiset{a[0]}
  {
    assert a == [a[0]] + a[1..];
    assert multiset(a) == multiset{a[0]} + multiset(a[1..]);
  }

  /** The tail of a sorted sequence is sorted. */
  lemma SortedTail(a: seq<int>)
    requires Sorted(a) && a != []
    ensures Sorted(a[1..])
  {
    forall i, j | 0 <= i < j < |a[1..]| ensures a[1..][i] <= a[1..][j] {
      assert a[1..][i] == a[i + 1] && a[1..][j] == a[j + 1];
    }
  }

  /** Two non-empty sequences with the same head and tail are equal. */
  lemma HeadTailEqual(a: seq<int>, b: seq<int>)
    requires a != [] && b != [] && a[0] == b[0] && a[1..] == b[1..]
    ensures a == b
  {
    assert a == [a[0]] + a[1..];
    assert b == [b[0]] + b[1..];
  }

  /** Sorted sequences with the same multiset have the same head. */
  lemma SameHead(a: seq<int>, b: seq<int>)
    requires Sorted(a) && Sorted(b) && multiset(a) == multiset(b) && a != []
    ensures b != [] && a[0] == b[0]
  {
    assert a[0] in multiset(b);
    assert b[0] in multiset(a);
    HeadIsMinimum(b, a[0]);
    HeadIsMinimum(a, b[0]);
  }

  /** Two sorted sequences holding the same multiset are equal. */
  lemma {:induction false} SortedUnique(a: seq<int>, b: seq<int>)
    requires Sorted(a) && Sorted(b) && multiset(a) == multiset(b)
    ensures a == b
  {
    if a == [] {
      assert |b| == |multiset(b)| == 0;
    } else {
      SameHead(a, b);
      TailMultiset(a);
      TailMultiset(b);
      SortedTail(a);
      SortedTail(b);
      SortedUnique(a[1..], b[1..]);
      HeadTailEqual(a, b);
    }
  }

  /** An element at two different positions occurs at least twice. */
  lemma TwoPositions(s: seq<int>, i: nat, j: nat)
    requires i < j < |s| && s[i] == s[j]
    ensures multiset(s)[s[i]] >= 2
  {
    assert s == s[..i] + [s[i]] + s[i + 1..j] + [s[j]] + s[j + 1..];
  }

  /** In a sequence without duplicates every element occurs at most once. */
  lemma {:induction false} DistinctOccursOnce(s: seq<int>, x: int)
    requires Distinct(s)
    ensures multiset(s)[x] <= 1
  {
    if s != [] {
      assert s == [s[0]] + s[1..];
      DistinctOccursOnce(s[1..], x);
      if s[0] == x {
        assert x !in s[1..];
      }
    }
  }

  /** Occurring at most once everywhere rules out duplicates. */
  lemma OccursOnceDistinct(s: seq<int>)
    requires forall x :: multiset(s)[x] <= 1
    ensures Distinct(s)
  {
    forall i, j | 0 <= i < j < |s| ensures s[i] != s[j] {
      if s[i] == s[j] {
        TwoPositions(s, i, j);
      }
    }
  }

  /** Strictly increasing integers in [0, n) with n entries are exactly 0, 1, ..., n-1. */
  lemma {:induction false} IncreasingInRangeIsRange(s: seq<int>, n: nat)
    requires |s| == n
    requires forall i :: 0 <= i < |s| ==> 0 <= s[i] < n
    requires forall i :: 0 <= i < |s| - 1 ==> s[i] < s[i + 1]
    ensures s == Range(n)
  {
    forall i | 0 <= i < |s| ensures s[i] == i {
      LowerBound(s, i);
      UpperBound(s, n, i);
    }
  }

  lemma {:induction false} LowerBound(s: seq<int>, i: nat)
    requires i < |s|
    requires |s| > 0 ==> s[0] >= 0
    requires forall k :: 0 <= k < |s| - 1 ==> s[k] < s[k + 1]
    ensures s[i] >= i
  {
    if i > 0 { LowerBound(s, i - 1); }
  }

  lemma {:induction false} UpperBound(s: seq<int>, n: nat, i: nat)
    requires i < |s| == n
    requires s[n - 1] < n
    requires forall k :: 0 <= k < |s| - 1 ==> s[k] < s[k + 1]
    ensures s[i] <= i
    decreases n - i
  {
    if i < n - 1 { UpperBound(s, n, i + 1); }
  }

  /** An accepted inner order has `rank` entries, all in [0, rank), none repeated. */
  lemma PermutationCheckSound(v: seq<int>, rank: nat)
    requires SortInts(v) == Range(rank)
    ensures |v| == rank && (forall i :: 0 <= i < |v| ==> 0 <= v[i] < rank) && Distinct(v)
  {
    var r := Range(rank);
    SortIntsSorted(v);
    forall i | 0 <= i < |v| ensures 0 <= v[i] < rank {
      assert v[i] in multiset(v);
      assert v[i] in multiset(r);
      var k :| 0 <= k < |r| && r[k] == v[i];
    }
    assert Distinct(r);
    forall x ensures multiset(v)[x] <= 1 {
      DistinctOccursOnce(r, x);
    }
    OccursOnceDistinct(v);
  }

  /** Every permutation of 0, ..., rank-1 is accepted as an inner order. */
  lemma PermutationCheckComplete(v: seq<int>, rank: nat)
    requires |v| == rank && (forall i :: 0 <= i < |v| ==> 0 <= v[i] < rank) && Distinct(v)
    ensures SortInts(v) == Range(rank)
  {
    var s := SortInts(v);
    SortIntsSorted(v);
    forall i | 0 <= i < |s| ensures 0 <= s[i] < rank {
      assert s[i] in multiset(v);
      var k :| 0 <= k < |v| && v[k] == s[i];
    }
    forall x ensures multiset(s)[x] <= 1 {
      DistinctOccursOnce(v, x);
    }
    OccursOnceDistinct(s);
    IncreasingInRangeIsRange(s, rank);
  }

  /**
   * The inner-order check `sorted(v) == list(range(rank))` holds exactly when `v` has `rank`
   * entries, every entry lies in [0, rank), and no entry repeats: `v` is a permutation of
   * 0, ..., rank-1.
   */
  lemma PermutationCheckIff(v: seq<int>, rank: nat)
    ensures SortInts(v) == Range(rank) <==>
      |v| == rank && (forall i :: 0 <= i < |v| ==> 0 <= v[i] < rank) && Distinct(v)
  {
    if SortInts(v) == Range(rank) {
      PermutationCheckSound(v, rank);
    }
    if |v| == rank && (forall i :: 0 <= i < |v| ==> 0 <= v[i] < rank) && Distinct(v) {
      PermutationCheckComplete(v, rank);
    }
  }

  /** A permutation of 0, ..., rank-1 is accepted regardless of its order. */
  lemma PermutationOrderIrrelevant(v: seq<int>, w: seq<int>, rank: nat)
    requires multiset(v) == multiset(w)
    ensures SortInts(v) == Range(rank) <==> SortInts(w) == Range(rank)
  {
    SortIntsSorted(v);
    SortIntsSorted(w);
    SortedUnique(SortInts(v), SortInts(w));
  }

  /** `v` lists each of 0, ..., n-1 exactly once. */
  predicate IsPermutationOfRange(v: seq<int>, n: int)
  {
    |v| == n && (forall i :: 0 <= i < |v| ==> 0 <= v[i] < n) && Distinct(v)
  }

  // ---------------------------------------------------------------- ChunkLayout

  datatype ChunkLayout = ChunkLayout(
    rank: Option<int>,
    gridOrigin: Option<seq<Option<int>>>,
    gridOriginSoftConstraint: Option<seq<Option<int>>>,
    innerOrder: Option<seq<int>>,
    innerOrderSoftConstraint: Option<seq<int>>,
    writeChunk: Option<ChunkLayoutGrid>,
    readChunk: Option<ChunkLayoutGrid>,
    codecChunk: Option<ChunkLayoutGrid>,
    chunk: Option<ChunkLayoutGrid>)

  /** The `rank` field constraint: between 0 and 32 inclusive when given. */
  predicate RankInBounds(l: ChunkLayout)
  {
    l.rank.Some? ==> 0 <= l.rank.value <= 32
  }

  /** The check on one inner-order field: it needs a rank, and must sort to 0, ..., rank-1. */
  function InnerOrderError(name: string, v: Option<seq<int>>, rank: Option<int>): Option<ChunkLayoutError>
  {
    if v.None? then None
    else if rank.None? then Some(RankRequired(name))
    else if SortInts(v.value) != Range(rank.value) then Some(NotAPermutation(name, rank.value, v.value))
    else None
  }

  /** The check on one grid-origin field: its length must equal the rank when both are given. */
  function OriginError(name: string, v: Option<seq<Option<int>>>, rank: Option<int>): Option<ChunkLayoutError>
  {
    if v.Some? && rank.Some? && |v.value| != rank.value then Some(OriginLength(name, |v.value|, rank.value))
    else None
  }

  /** The errors `_post_validate` can raise, in the order it checks the four fields. */
  function LayoutErrors(l: ChunkLayout): seq<Option<ChunkLayoutError>>
  {
    [InnerOrderError("inner_order", l.innerOrder, l.rank),
     InnerOrderError("inner_order_soft_constraint", l.innerOrderSoftConstraint, l.rank),
     OriginError("grid_origin", l.gridOrigin, l.rank),
     OriginError("grid_origin_soft_constraint", l.gridOriginSoftConstraint, l.rank)]
  }

  /** The first error in a list of checks, if any. */
  function FirstError(errs: seq<Option<ChunkLayoutError>>): (r: Option<ChunkLayoutError>)
    ensures r.None? <==> forall i :: 0 <= i < |errs| ==> errs[i].None?
  {
    if errs == [] then None
    else if errs[0].Some? then errs[0]
    else FirstError(errs[1..])
  }

  /** The first error is the one at the first failing position. */
  lemma {:induction false} FirstErrorAt(errs: seq<Option<ChunkLayoutError>>, i: nat)
    requires i < |errs| && errs[i].Some?
    requires forall j :: 0 <= j < i ==> errs[j].None?
    ensures FirstError(errs) == errs[i]
  {
    if i > 0 {
      FirstErrorAt(errs[1..], i - 1);
    }
  }

  /** The fields a layout must satisfy to pass `_post_validate`. */
  predicate ValidLayout(l: ChunkLayout)
  {
    (l.innerOrder.Some? ==> l.rank.Some? && SortInts(l.innerOrder.value) == Range(l.rank.value))
    && (l.innerOrderSoftConstraint.Some? ==> l.rank.Some? && SortInts(l.innerOrderSoftConstraint.value) == Range(l.rank.value))
    && (l.gridOrigin.Some? && l.rank.Some? ==> |l.gridOrigin.value| == l.rank.value)
    && (l.gridOriginSoftConstraint.Some? && l.rank.Some? ==> |l.gridOriginSoftConstraint.value| == l.rank.value)
  }

  /**
   * `ChunkLayout._post_validate`: the two inner-order fields, then the two grid-origin fields;
   * the first failure is raised, and a valid layout is returned unchanged.
   */
  method PostValidate(l: ChunkLayout) returns (r: Result<ChunkLayout, ChunkLayoutError>)
    ensures r.Ok? <==> ValidLayout(l)
    ensures r.Ok? ==> r.value == l
    ensures r.Err? ==> Some(r.error) == FirstError(LayoutErrors(l))
  {
    var errs := LayoutErrors(l);
    var innerFields := [("inner_order", l.innerOrder), ("inner_order_soft_constraint", l.innerOrderSoftConstraint)];
    var i := 0;
    while i < |innerFields|
      invariant 0 <= i <= |innerFields|
      invariant forall j :: 0 <= j < i ==> errs[j].None?
    {
      var (name, v) := innerFields[i];
      if v.Some? {
        if l.rank.None? {
          assert errs[i] == Some(RankRequired(name));
          FirstErrorAt(errs, i);
          return Err(RankRequired(name));
        }
        if SortInts(v.value) != Range(l.rank.value) {
          assert errs[i] == Some(NotAPermutation(name, l.rank.value, v.value));
          FirstErrorAt(errs, i);
          return Err(NotAPermutation(name, l.rank.value, v.value));
        }
      }
      i := i + 1;
    }
    var originFields := [("grid_origin", l.gridOrigin), ("grid_origin_soft_constraint", l.gridOriginSoftConstraint)];
    i := 0;
    while i < |originFields|
      invariant 0 <= i <= |originFields|
      invariant forall j :: 0 <= j < 2 + i ==> errs[j].None?
    {
      var (name, value) := originFields[i];
      if value.Some? && l.rank.Some? && |value.value| != l.rank.value {
        assert errs[2 + i] == Some(OriginLength(name, |value.value|, l.rank.value));
        FirstErrorAt(errs, 2 + i);
        return Err(OriginLength(name, |value.value|, l.rank.value));
      }
      i := i + 1;
    }
    assert errs[0].None? && errs[1].None? && errs[2].None? && errs[3].None?;
    return Ok(l);
  }

  /** Giving an inner order without a rank is always rejected. */
  lemma InnerOrderNeedsRank(l: ChunkLayout)
    requires l.innerOrder.Some? && l.rank.None?
    ensures FirstError(LayoutErrors(l)) == Some(RankRequired("inner_order"))
  {
  }

  /** With a rank between 0 and 32, a layout passes iff both inner orders are permutations of 0..rank-1 and both origins have rank entries. */
  lemma ValidLayoutMeaning(l: ChunkLayout)
    requires RankInBounds(l) && l.rank.Some?
    ensures ValidLayout(l) <==>
      (l.innerOrder.Some? ==> IsPermutationOfRange(l.innerOrder.value, l.rank.value))
      && (l.innerOrderSoftConstraint.Some? ==> IsPermutationOfRange(l.innerOrderSoftConstraint.value, l.rank.value))
      && (l.gridOrigin.Some? ==> |l.gridOrigin.value| == l.rank.value)
      && (l.gridOriginSoftConstraint.Some? ==> |l.gridOriginSoftConstraint.value| == l.rank.value)
  {
    if l.innerOrder.Some? { PermutationCheckIff(l.innerOrder.value, l.rank.value); }
    if l.innerOrderSoftConstraint.Some? { PermutationCheckIff(l.innerOrderSoftConstraint.value, l.rank.value); }
  }

  /** Examples: [2, 0, 1] is an inner order for rank 3; [0, 0, 1] and [0, 1] are not. */
  lemma InnerOrderExamples()
    ensures SortInts([2, 0, 1]) == Range(3)
    ensures SortInts([0, 0, 1]) != Range(3)
    ensures SortInts([0, 1]) != Range(3)
  {
    PermutationCheckComplete([2, 0, 1], 3);
    var dup := [0, 0, 1];
    assert !Distinct(dup) by { assert dup[0] == dup[1]; }
    PermutationCheckIff(dup, 3);
    PermutationCheckIff([0, 1], 3);
  }

  // ---------------------------------------------------------------- construction

  /** Building a grid: the field constraints first, then the length-consistency validator. */
  method ValidateGrid(g: ChunkLayoutGrid) returns (r: Result<ChunkLayoutGrid, ChunkLayoutError>)
    ensures r.Ok? <==> GridFieldsInBounds(g) && GridLengthsConsistent(g)
    ensures r.Ok? ==> r.value == g
  {
    if !GridFieldsInBounds(g) {
      return Err(FieldOutOfBounds("chunk grid"));
    }
    r := CheckGridLengths(g);
  }

  /** Every chunk grid the layout holds is a valid grid. */
  predicate GridsValid(l: ChunkLayout)
  {
    (l.writeChunk.Some? ==> GridFieldsInBounds(l.writeChunk.value) && GridLengthsConsistent(l.writeChunk.value))
    && (l.readChunk.Some? ==> GridFieldsInBounds(l.readChunk.value) && GridLengthsConsistent(l.readChunk.value))
    && (l.codecChunk.Some? ==> GridFieldsInBounds(l.codecChunk.value) && GridLengthsConsistent(l.codecChunk.value))
    && (l.chunk.Some? ==> GridFieldsInBounds(l.chunk.value) && GridLengthsConsistent(l.chunk.value))
  }

  /**
   * Building a layout: the rank bound and the nested grids are validated as fields, then
   * `_post_validate` runs; an accepted layout is returned unchanged.
   */
  method ValidateLayout(l: ChunkLayout) returns (r: Result<ChunkLayout, ChunkLayoutError>)
    ensures r.Ok? <==> RankInBounds(l) && GridsValid(l) && ValidLayout(l)
    ensures r.Ok? ==> r.value == l
  {
    if !RankInBounds(l) {
      return Err(FieldOutOfBounds("rank"));
    }
    var grids := [l.writeChunk, l.readChunk, l.codecChunk, l.chunk];
    var i := 0;
    while i < |grids|
      invariant 0 <= i <= |grids|
      invariant forall j :: 0 <= j < i && grids[j].Some? ==>
                  GridFieldsInBounds(grids[j].value) && GridLengthsConsistent(grids[j].value)
    {
      if grids[i].Some? {
        var checked := ValidateGrid(grids[i].value);
        if checked.Err? {
          assert i == 0 || i == 1 || i == 2 || i == 3;
          assert !GridsValid(l);
          return Err(checked.error);
        }
      }
      i := i + 1;
    }
    assert grids[0] == l.writeChunk && grids[1] == l.readChunk && grids[2] == l.codecChunk && grids[3] == l.chunk;
    r := PostValidate(l);
  }
}
