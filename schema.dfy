/**
 * The schema bundle: dimension-unit parsing, rank reconciliation between the explicit
 * rank, the domain shape and the dimension units, the effective rank, and the
 * compatibility relation between two schemas.
 */
module Schema {
  import opened Wrappers
  import opened Json
  import Types
  import Transform
  import ChunkLayout

  datatype SchemaError =
    | DimensionUnitsNotAList
    | UnitMultiplierInvalid(index: nat)
    | UnitDictInvalid(index: nat)
    | UnitEntryInvalid(index: nat)
    | RankMismatch(rank: int, domainRank: int)
    | UnitsLengthMismatch(length: nat, rank: int)

  // ---------------------------------------------------------------- unit strings

  /**
   * A decimal-digit class as `\d` in a Python str pattern sees it: on ASCII characters it
   * is exactly '0' to '9'; beyond ASCII it holds for every Unicode decimal digit ("٣" is
   * one), a table the model takes as the parameter `isDigit`.
   */
  predicate DigitClass(isDigit: char -> bool)
  {
    forall c: char :: (c as int) < 128 ==> (isDigit(c) <==> Types.IsAsciiDigit(c))
  }

  /** `[\d.]`: a decimal digit or a dot. */
  predicate IsDigitOrDot(c: char, isDigit: char -> bool) { isDigit(c) || c == '.' }

  predicate AllDigitsOrDots(s: string, isDigit: char -> bool)
  {
    forall i :: 0 <= i < |s| ==> IsDigitOrDot(s[i], isDigit)
  }
  predicate AllLetters(s: string) { forall i :: 0 <= i < |s| ==> Types.IsAsciiLetter(s[i]) }

  /** The end of the longest run of digits and dots starting at `i`. */
  function DigitsEnd(s: string, i: nat, isDigit: char -> bool): (r: nat)
    requires i <= |s|
    decreases |s| - i
    ensures i <= r <= |s|
    ensures forall k :: i <= k < r ==> IsDigitOrDot(s[k], isDigit)
    ensures r < |s| ==> !IsDigitOrDot(s[r], isDigit)
  {
    if i == |s| || !IsDigitOrDot(s[i], isDigit) then i else DigitsEnd(s, i + 1, isDigit)
  }

  /** The end of the longest run of ASCII letters starting at `i`. */
  function LettersEnd(s: string, i: nat): (r: nat)
    requires i <= |s|
    decreases |s| - i
    ensures i <= r <= |s|
    ensures forall k :: i <= k < r ==> Types.IsAsciiLetter(s[k])
    ensures r < |s| ==> !Types.IsAsciiLetter(s[r])
  {
    if i == |s| || !Types.IsAsciiLetter(s[i]) then i else LettersEnd(s, i + 1)
  }

  datatype UnitMatch = NoMatch | Match(multiplierText: string, baseUnit: string)

  /**
   * `re.match(r"^([\d.]+)?([a-zA-Z]*)$", s)` under Python's `re`, where `$` matches at the
   * end of the string or just before a final newline.
   */
  function MatchUnitPattern(s: string, isDigit: char -> bool): UnitMatch
  {
    var d := DigitsEnd(s, 0, isDigit);
    var l := LettersEnd(s, d);
    if l == |s| || (l == |s| - 1 && s[l] == '\n') then Match(s[..d], s[d..l]) else NoMatch
  }

  /** A run of digits and dots from `i` to `j`, stopped by the end or another character, ends at `j`. */
  lemma {:induction false} DigitsEndAt(s: string, i: nat, j: nat, isDigit: char -> bool)
    requires i <= j <= |s|
    requires forall k :: i <= k < j ==> IsDigitOrDot(s[k], isDigit)
    requires j < |s| ==> !IsDigitOrDot(s[j], isDigit)
    ensures DigitsEnd(s, i, isDigit) == j
    decreases j - i
  {
    if i < j {
      DigitsEndAt(s, i + 1, j, isDigit);
    }
  }

  /** A run of letters from `i` to `j`, stopped by the end or another character, ends at `j`. */
  lemma {:induction false} LettersEndAt(s: string, i: nat, j: nat)
    requires i <= j <= |s|
    requires forall k :: i <= k < j ==> Types.IsAsciiLetter(s[k])
    requires j < |s| ==> !Types.IsAsciiLetter(s[j])
    ensures LettersEnd(s, i) == j
    decreases j - i
  {
    if i < j {
      LettersEndAt(s, i + 1, j);
    }
  }

  /** Digits/dots, then letters, then an optional final newline: the pattern matches with those groups. */
  lemma MatchUnitPatternComplete(s: string, m: string, b: string, isDigit: char -> bool)
    requires DigitClass(isDigit)
    requires AllDigitsOrDots(m, isDigit) && AllLetters(b) && (s == m + b || s == m + b + "\n")
    ensures MatchUnitPattern(s, isDigit) == Match(m, b)
  {
    var n := |m| + |b|;
    assert forall k :: 0 <= k < |m| ==> s[k] == m[k];
    assert forall k :: |m| <= k < n ==> s[k] == b[k - |m|];
    assert n < |s| ==> s[n] == '\n';
    if |m| < |s| {
      if |b| > 0 {
        assert s[|m|] == b[0];
      }
      assert !IsDigitOrDot(s[|m|], isDigit);
    }
    DigitsEndAt(s, 0, |m|, isDigit);
    LettersEndAt(s, |m|, n);
    assert s[..|m|] == m && s[|m|..n] == b;
  }

  /** Whenever the pattern matches, the string is the two groups and possibly a final newline. */
  lemma MatchUnitPatternSound(s: string, m: string, b: string, isDigit: char -> bool)
    requires MatchUnitPattern(s, isDigit) == Match(m, b)
    ensures AllDigitsOrDots(m, isDigit) && AllLetters(b) && (s == m + b || s == m + b + "\n")
  {
    var d := DigitsEnd(s, 0, isDigit);
    var l := LettersEnd(s, d);
    assert m == s[..d] && b == s[d..l];
    if l == |s| {
      assert s == s[..d] + s[d..l];
    } else {
      assert s == s[..d] + s[d..l] + "\n";
    }
  }

  /** The pattern matches exactly the strings made of digits/dots, then letters, then an optional final newline. */
  lemma MatchUnitPatternIff(s: string, m: string, b: string, isDigit: char -> bool)
    requires DigitClass(isDigit)
    ensures MatchUnitPattern(s, isDigit) == Match(m, b) <==>
      AllDigitsOrDots(m, isDigit) && AllLetters(b) && (s == m + b || s == m + b + "\n")
  {
    if AllDigitsOrDots(m, isDigit) && AllLetters(b) && (s == m + b || s == m + b + "\n") {
      MatchUnitPatternComplete(s, m, b, isDigit);
    }
    if MatchUnitPattern(s, isDigit) == Match(m, b) {
      MatchUnitPatternSound(s, m, b, isDigit);
    }
  }

  /**
   * One string entry of `dimension_units`: "" is the default unit; a string matching the
   * pattern splits into a multiplier (`float()` of the digits, via `parseFloat`, default 1.0)
   * and a base unit; any other string becomes the base unit with multiplier 1.
   */
  function ParseUnitString(s: string, isDigit: char -> bool, parseFloat: string -> Option<real>): (r: Option<Types.Unit>)
    ensures s == "" ==> r == Some(Types.DefaultUnit)
    ensures MatchUnitPattern(s, isDigit).NoMatch? ==> r == Some(Types.Unit(1.0, s))
    ensures r.None? <==> MatchUnitPattern(s, isDigit).Match? && MatchUnitPattern(s, isDigit).multiplierText != ""
                         && parseFloat(MatchUnitPattern(s, isDigit).multiplierText).None?
  {
    if s == "" then Some(Types.Unit(1.0, ""))
    else
      match MatchUnitPattern(s, isDigit)
      case Match(m, b) =>
        if m != "" then
          (match parseFloat(m)
           case None => None
           case Some(x) => Some(Types.Unit(x, b)))
        else Some(Types.Unit(1.0, b))
      case NoMatch => Some(Types.Unit(1.0, s))
  }

  /**
   * Rendering a unit and parsing it back gives the same unit, when the base unit is all
   * letters and the multiplier's text is digits and dots that `float()` reads back.
   */
  lemma UnitTextRoundTrip(u: Types.Unit, renderFloat: real -> string, isDigit: char -> bool, parseFloat: string -> Option<real>)
    requires DigitClass(isDigit)
    requires AllLetters(u.baseUnit)
    requires u.multiplier != 1.0 ==>
      renderFloat(u.multiplier) != "" && AllDigitsOrDots(renderFloat(u.multiplier), isDigit)
      && parseFloat(renderFloat(u.multiplier)) == Some(u.multiplier)
    ensures ParseUnitString(Types.UnitText(u, renderFloat), isDigit, parseFloat) == Some(u)
  {
    var t := Types.UnitText(u, renderFloat);
    if u.multiplier == 1.0 {
      assert t == u.baseUnit;
      assert t == "" + u.baseUnit;
      MatchUnitPatternIff(t, "", u.baseUnit, isDigit);
    } else {
      var m := renderFloat(u.multiplier);
      assert t == m + u.baseUnit;
      MatchUnitPatternIff(t, m, u.baseUnit, isDigit);
    }
  }

  /** Examples: "4nm" is 4 nanometres, "nm" is 1 nanometre, "4 nm" is kept whole as a base unit. */
  lemma ParseUnitExamples(isDigit: char -> bool, parseFloat: string -> Option<real>)
    requires DigitClass(isDigit)
    requires parseFloat("4") == Some(4.0)
    ensures ParseUnitString("4nm", isDigit, parseFloat) == Some(Types.Unit(4.0, "nm"))
    ensures ParseUnitString("nm", isDigit, parseFloat) == Some(Types.Unit(1.0, "nm"))
    ensures ParseUnitString("4 nm", isDigit, parseFloat) == Some(Types.Unit(1.0, "4 nm"))
  {
    MatchUnitPatternIff("4nm", "4", "nm", isDigit);
    MatchUnitPatternIff("nm", "", "nm", isDigit);
    assert "4nm" == "4" + "nm";
    assert "nm" == "" + "nm";
    var s := "4 nm";
    assert DigitsEnd(s, 0, isDigit) == 1 by { assert !IsDigitOrDot(s[1], isDigit); assert DigitsEnd(s, 1, isDigit) == 1; }
    assert LettersEnd(s, 1) == 1 by { assert !Types.IsAsciiLetter(s[1]); }
  }

  /**
   * `\d` is not ASCII-only: "٣nm" (ARABIC-INDIC DIGIT THREE, then "nm") is 3 nanometres,
   * since `float()` reads Unicode decimal digits as well.
   */
  lemma UnicodeDigitMultiplier(isDigit: char -> bool, parseFloat: string -> Option<real>)
    requires DigitClass(isDigit)
    requires isDigit('\U{0663}') && parseFloat("\U{0663}") == Some(3.0)
    ensures ParseUnitString("\U{0663}nm", isDigit, parseFloat) == Some(Types.Unit(3.0, "nm"))
  {
    MatchUnitPatternIff("\U{0663}nm", "\U{0663}", "nm", isDigit);
    assert "\U{0663}nm" == "\U{0663}" + "nm";
  }

  /** What the validator's loop appends for one entry: nothing yet known, a unit, or the raw value. */
  datatype UnitSlot = NoUnit | AUnit(unit: Types.Unit) | Raw(value: Json)

  /** The loop body of `validate_dimension_units` for the entry at `index`. */
  function ConvertUnitEntry(v: Json, index: nat, isDigit: char -> bool, parseFloat: string -> Option<real>,
                            unitOfDict: map<string, Json> -> Option<Types.Unit>): (r: Result<UnitSlot, SchemaError>)
    ensures v.Null? <==> r == Ok(NoUnit)
    ensures v.Str? ==> (r.Ok? <==> ParseUnitString(v.s, isDigit, parseFloat).Some?)
    ensures v.Str? && r.Ok? ==> r.value == AUnit(ParseUnitString(v.s, isDigit, parseFloat).value)
    ensures v.Obj? ==> (r.Ok? <==> unitOfDict(v.fields).Some?)
    ensures !v.Null? && !v.Str? && !v.Obj? ==> r == Ok(Raw(v))
  {
    match v
    case Null => Ok(NoUnit)
    case Str(s) =>
      (match ParseUnitString(s, isDigit, parseFloat)
       case None => Err(UnitMultiplierInvalid(index))
       case Some(u) => Ok(AUnit(u)))
    case Obj(d) =>
      (match unitOfDict(d)
       case None => Err(UnitDictInvalid(index))
       case Some(u) => Ok(AUnit(u)))
    case _ => Ok(Raw(v))
  }

  /** The unit a converted slot stands for; a raw value is later rejected by the field's type. */
  function SlotUnit(s: UnitSlot): Option<Types.Unit>
  {
    if s.AUnit? then Some(s.unit) else None
  }

  /**
   * `validate_dimension_units` followed by the field's `list[str | Unit | None]` check:
   * null stays null, a non-list is rejected, the loop converts entries in order (a failing
   * `float()` or unit dict raises at once), and afterwards any raw entry that is not a unit
   * is rejected. Null entries stay in place, so the result has the input's length.
   */
  method ValidateDimensionUnits(v: Json, isDigit: char -> bool, parseFloat: string -> Option<real>,
                                unitOfDict: map<string, Json> -> Option<Types.Unit>)
    returns (r: Result<Option<seq<Option<Types.Unit>>>, SchemaError>)
    ensures v.Null? <==> r == Ok(None)
    ensures !v.Null? && !v.Arr? ==> r == Err(DimensionUnitsNotAList)
    ensures r.Ok? && v.Arr? ==>
      r.value.Some? && |r.value.value| == |v.items|
      && forall i :: 0 <= i < |v.items| ==>
           ConvertUnitEntry(v.items[i], i, isDigit, parseFloat, unitOfDict).Ok?
           && r.value.value[i] == SlotUnit(ConvertUnitEntry(v.items[i], i, isDigit, parseFloat, unitOfDict).value)
           && (r.value.value[i].None? <==> v.items[i].Null?)
    ensures v.Arr? ==>
      ((forall i :: 0 <= i < |v.items| ==>
          ConvertUnitEntry(v.items[i], i, isDigit, parseFloat, unitOfDict).Ok?
          && !ConvertUnitEntry(v.items[i], i, isDigit, parseFloat, unitOfDict).value.Raw?)
       <==> r.Ok?)
  {
    if v.Null? {
      return Ok(None);
    }
    if !v.Arr? {
      return Err(DimensionUnitsNotAList);
    }
    var result: seq<UnitSlot> := [];
    var i := 0;
    while i < |v.items|
      invariant 0 <= i <= |v.items|
      invariant |result| == i
      invariant forall k :: 0 <= k < i ==> ConvertUnitEntry(v.items[k], k, isDigit, parseFloat, unitOfDict) == Ok(result[k])
    {
      var slot := ConvertUnitEntry(v.items[i], i, isDigit, parseFloat, unitOfDict);
      if slot.Err? {
        return Err(slot.error);
      }
      result := result + [slot.value];
      i := i + 1;
    }
    var units: seq<Option<Types.Unit>> := [];
    i := 0;
    while i < |result|
      invariant 0 <= i <= |result|
      invariant |units| == i
      invariant forall k :: 0 <= k < i ==> units[k] == SlotUnit(result[k]) && !result[k].Raw?
    {
      if result[i].Raw? {
        return Err(UnitEntryInvalid(i));
      }
      units := units + [SlotUnit(result[i])];
      i := i + 1;
    }
    return Ok(Some(units));
  }

  // ---------------------------------------------------------------- Schema

  class Schema {
    var dtype: Option<Types.DataType>
    var domain: Option<Transform.IndexDomain>
    var chunkLayout: Option<ChunkLayout.ChunkLayout>
    var codec: Json
    var fillValue: Json
    var dimensionUnits: Option<seq<Option<Types.Unit>>>
    var rank: Option<int>

    constructor (dtype: Option<Types.DataType>, domain: Option<Transform.IndexDomain>,
                 chunkLayout: Option<ChunkLayout.ChunkLayout>, codec: Json, fillValue: Json,
                 dimensionUnits: Option<seq<Option<Types.Unit>>>, rank: Option<int>)
      ensures this.dtype == dtype && this.domain == domain && this.chunkLayout == chunkLayout
      ensures this.codec == codec && this.fillValue == fillValue
      ensures this.dimensionUnits == dimensionUnits && this.rank == rank
    {
      this.dtype := dtype;
      this.domain := domain;
      this.chunkLayout := chunkLayout;
      this.codec := codec;
      this.fillValue := fillValue;
      this.dimensionUnits := dimensionUnits;
      this.rank := rank;
    }

    /** `self.domain and self.domain.shape`: the domain's shape when it is set and non-empty. */
    function DomainShapeRank(): (r: Option<int>)
      reads this
      ensures r.Some? <==> domain.Some? && domain.value.shape.Some? && domain.value.shape.value != []
      ensures r.Some? ==> r.value == |domain.value.shape.value| > 0
    {
      if domain.Some? && domain.value.shape.Some? && domain.value.shape.value != []
      then Some(|domain.value.shape.value|) else None
    }

    /** `get_effective_rank`: rank, else the domain shape's length, else the number of dimension units. */
    function EffectiveRank(): (r: Option<int>)
      reads this
      ensures rank.Some? ==> r == rank
      ensures rank.None? && DomainShapeRank().Some? ==> r == DomainShapeRank()
      ensures rank.None? && DomainShapeRank().None? ==>
        r == (if dimensionUnits.Some? && dimensionUnits.value != [] then Some(|dimensionUnits.value|) else None)
    {
      if rank.Some? then rank
      else if DomainShapeRank().Some? then DomainShapeRank()
      else if dimensionUnits.Some? && dimensionUnits.value != [] then Some(|dimensionUnits.value|)
      else None
    }

    /** `is_compatible_with`: data types agree when both set, and effective ranks agree when both known. */
    predicate IsCompatibleWith(other: Schema)
      reads this, other
    {
      (dtype.Some? && other.dtype.Some? ==> dtype == other.dtype)
      && (EffectiveRank().Some? && other.EffectiveRank().Some? ==> EffectiveRank() == other.EffectiveRank())
    }

    /**
     * `model_post_init`: an explicit rank must match a non-empty domain shape; a missing rank
     * is taken from a non-empty domain shape; dimension units must have rank entries. The
     * only field it changes is `rank`, and it never changes the effective rank.
     */
    method PostInit() returns (r: Outcome<SchemaError>)
      modifies this`rank
      ensures old(rank).Some? && old(DomainShapeRank()).Some? && old(DomainShapeRank()).value != old(rank).value ==>
        r == Fail(RankMismatch(old(rank).value, old(DomainShapeRank()).value)) && rank == old(rank)
      ensures r != Fail(RankMismatch(old(rank).GetOr(0), old(DomainShapeRank()).GetOr(0))) ==>
        rank == (if old(rank).None? then old(DomainShapeRank()) else old(rank))
      ensures r == Pass <==>
        (old(rank).Some? && old(DomainShapeRank()).Some? ==> old(DomainShapeRank()).value == old(rank).value)
        && (dimensionUnits.Some? && rank.Some? ==> |dimensionUnits.value| == rank.value)
      ensures EffectiveRank() == old(EffectiveRank())
    {
      if domain.Some? && rank.Some? {
        var domainRank := if domain.value.shape.Some? && domain.value.shape.value != [] then Some(|domain.value.shape.value|) else None;
        if domainRank.Some? && domainRank.value != rank.value {
          return Fail(RankMismatch(rank.value, domainRank.value));
        }
      }
      if rank.None? && domain.Some? && domain.value.shape.Some? && domain.value.shape.value != [] {
        rank := Some(|domain.value.shape.value|);
      }
      if dimensionUnits.Some? && rank.Some? {
        if |dimensionUnits.value| != rank.value {
          return Fail(UnitsLengthMismatch(|dimensionUnits.value|, rank.value));
        }
      }
      return Pass;
    }
  }

  /** Compatibility is reflexive. */
  lemma CompatibleReflexive(s: Schema)
    ensures s.IsCompatibleWith(s)
  {
  }

  /** Compatibility is symmetric. */
  lemma CompatibleSymmetric(a: Schema, b: Schema)
    ensures a.IsCompatibleWith(b) <==> b.IsCompatibleWith(a)
  {
  }

  /** Two schemas are incompatible exactly when their data types differ or their known effective ranks differ. */
  lemma IncompatibleIff(a: Schema, b: Schema)
    ensures !a.IsCompatibleWith(b) <==>
      (a.dtype.Some? && b.dtype.Some? && a.dtype != b.dtype)
      || (a.EffectiveRank().Some? && b.EffectiveRank().Some? && a.EffectiveRank() != b.EffectiveRank())
  {
  }
}
