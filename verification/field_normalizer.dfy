/** Field normalisation (`normalizeField` in src/calculators.js): turns a
    field declaration into a descriptor carrying a unit, a hard range, a
    recommended range and a helper text. */
module FieldNormalizer {
  import opened Wrappers
  import opened Text
  import opened RangeInference

  /** A field as the catalogue declares it: the positional triple
      `[key, label, defaultValue]`, or an object whose own properties
      override the inferred ones. An absent property is `None`. */
  datatype FieldDecl =
    | Tuple(key: string, caption: string, defaultValue: real)
    | Object(props: FieldProps)

  datatype FieldProps = FieldProps(
    key: Option<string>,
    caption: Option<string>,
    defaultValue: Option<real>,
    unit: Option<string>,
    min: Option<real>,
    max: Option<real>,
    recommendedMin: Option<real>,
    recommendedMax: Option<real>,
    helperText: Option<string>)

  /** The normalised field. `min`/`max` is the hard range. */
  datatype FieldSpec = FieldSpec(
    key: Option<string>,
    caption: Option<string>,
    defaultValue: Option<real>,
    unit: string,
    min: real,
    max: real,
    recommendedMin: real,
    recommendedMax: real,
    helperText: string)

  /** The regular expression `\(([^)]+)\)` matches `caption` with its opening
      parenthesis at `i` and its closing one at `j`: the body between them is
      non-empty and holds no `)`. */
  predicate GroupAt(caption: string, i: int, j: int) {
    0 <= i && i + 1 < j < |caption| && caption[i] == '(' && caption[j] == ')' &&
    forall k | i < k < j :: caption[k] != ')'
  }

  /** The match `exec` reports: the group that starts leftmost. */
  ghost predicate IsLeftmostGroup(caption: string, i: int, j: int) {
    GroupAt(caption, i, j) && forall a, b | 0 <= a < i :: !GroupAt(caption, a, b)
  }

  ghost predicate NoGroup(caption: string) {
    forall a, b :: !GroupAt(caption, a, b)
  }

  /** The first `)` at or after position `k`. */
  function FirstClose(s: string, k: nat): (r: Option<nat>)
    requires k <= |s|
    ensures r.Some? ==> k <= r.value < |s| && s[r.value] == ')'
    ensures r.Some? ==> forall m | k <= m < r.value :: s[m] != ')'
    ensures r.None? ==> forall m | k <= m < |s| :: s[m] != ')'
    decreases |s| - k
  {
    if k == |s| then None
    else if s[k] == ')' then Some(k)
    else FirstClose(s, k + 1)
  }

  /** The leftmost group starting at or after position `i`, as the pair of
      its parenthesis positions. */
  function GroupFrom(caption: string, i: nat): (r: Option<(nat, nat)>)
    requires i <= |caption|
    ensures r.Some? ==> i <= r.value.0 && GroupAt(caption, r.value.0, r.value.1)
    ensures r.Some? ==> forall a, b | i <= a < r.value.0 :: !GroupAt(caption, a, b)
    ensures r.None? ==> forall a, b | i <= a :: !GroupAt(caption, a, b)
    decreases |caption| - i
  {
    if i == |caption| then None
    else if caption[i] == '(' && i + 1 < |caption| && FirstClose(caption, i + 1).Some?
            && FirstClose(caption, i + 1).value > i + 1 then
      Some((i, FirstClose(caption, i + 1).value))
    else
      GroupAtFirstClose(caption, i);
      GroupFrom(caption, i + 1)
  }

  /** A group opened at `i` must close at the first `)` after it. */
  lemma GroupAtFirstClose(caption: string, i: nat)
    requires i < |caption|
    ensures forall b :: GroupAt(caption, i, b) ==>
      i + 1 < |caption| && FirstClose(caption, i + 1) == Some(b)
  {
    forall b | GroupAt(caption, i, b)
      ensures FirstClose(caption, i + 1) == Some(b)
    {
      var c := FirstClose(caption, i + 1);
      assert caption[b] == ')';
    }
  }

  /** `/\(([^)]+)\)/.exec(label)?.[1] ?? ''`: the body of the leftmost
      parenthesised group with a non-empty body free of `)`, else `''`. */
  function ExtractUnit(caption: string): (unit: string)
    ensures NoGroup(caption) <==> unit == ""
    ensures forall i, j | IsLeftmostGroup(caption, i, j) :: unit == caption[i + 1..j]
  {
    match GroupFrom(caption, 0)
    case Some((i, j)) => caption[i + 1..j]
    case None => ""
  }

  /** `Rentang rekomendasi {min} - {max}`. */
  function HelperBase(min: real, max: real): string {
    "Rentang rekomendasi " + NumberText(min) + " - " + NumberText(max)
  }

  /** `${undefined}` is the text "undefined". */
  function Show(s: Option<string>): string {
    s.GetOr("undefined")
  }

  /** The text both inferences read: `${key} ${caption}`. */
  function SourceText(f: FieldDecl): string {
    match f
    case Tuple(key, caption, _) => key + " " + caption
    case Object(p) => Show(p.key) + " " + Show(p.caption)
  }

  /** `normalizeField(field)`. Both forms infer the hard range from the hard
      table with fallback [-1000000, 1000000], then the recommended range
      from the recommended table with the inferred hard range as fallback.
      The tuple form also extracts the unit from the caption and builds the
      helper text; the object form defaults them to `''` and lets every
      property the declaration carries override the inferred value. */
  function NormalizeField(f: FieldDecl): (spec: FieldSpec)
    // the declaration's own identity is kept
    ensures f.Tuple? ==> spec.key == Some(f.key) && spec.caption == Some(f.caption)
                         && spec.defaultValue == Some(f.defaultValue)
    ensures f.Object? ==> spec.key == f.props.key && spec.caption == f.props.caption
                          && spec.defaultValue == f.props.defaultValue
    // hard range: first matching hard rule, else the global fallback
    ensures forall i | IsFirstMatch(HardRules, Lower(SourceText(f)), i) ::
      ((f.Tuple? || f.props.min.None?) ==> spec.min == HardRules[i].min)
      && ((f.Tuple? || f.props.max.None?) ==> spec.max == HardRules[i].max)
    ensures NoneMatches(HardRules, Lower(SourceText(f))) ==>
      (f.Tuple? || f.props.min.None?) ==> spec.min == HardFallback.min
    ensures NoneMatches(HardRules, Lower(SourceText(f))) ==>
      (f.Tuple? || f.props.max.None?) ==> spec.max == HardFallback.max
    // recommended range: first matching recommended rule, else the hard range
    ensures forall i | IsFirstMatch(RecommendedRules, Lower(SourceText(f)), i) ::
      ((f.Tuple? || f.props.recommendedMin.None?) ==> spec.recommendedMin == RecommendedRules[i].min)
      && ((f.Tuple? || f.props.recommendedMax.None?) ==> spec.recommendedMax == RecommendedRules[i].max)
    ensures NoneMatches(RecommendedRules, Lower(SourceText(f))) && f.Tuple? ==>
      spec.recommendedMin == spec.min && spec.recommendedMax == spec.max
    // an object's recommended fallback is the inferred hard range, not its own min/max
    ensures NoneMatches(RecommendedRules, Lower(SourceText(f))) && f.Object? ==>
      var hard := InferRange(SourceText(f), HardRules, HardFallback.min, HardFallback.max);
      (f.props.recommendedMin.None? ==> spec.recommendedMin == hard.min)
      && (f.props.recommendedMax.None? ==> spec.recommendedMax == hard.max)
    // explicit properties of an object declaration win
    ensures f.Object? && f.props.min.Some? ==> spec.min == f.props.min.value
    ensures f.Object? && f.props.max.Some? ==> spec.max == f.props.max.value
    ensures f.Object? && f.props.recommendedMin.Some? ==> spec.recommendedMin == f.props.recommendedMin.value
    ensures f.Object? && f.props.recommendedMax.Some? ==> spec.recommendedMax == f.props.recommendedMax.value
    ensures f.Object? ==> spec.unit == f.props.unit.GetOr("") && spec.helperText == f.props.helperText.GetOr("")
    // unit and helper text of a tuple declaration
    ensures f.Tuple? ==> (spec.unit == "" <==> NoGroup(f.caption))
    ensures f.Tuple? ==> forall i, j | IsLeftmostGroup(f.caption, i, j) :: spec.unit == f.caption[i + 1..j]
    ensures f.Tuple? ==> (spec.helperText ==
      HelperBase(spec.recommendedMin, spec.recommendedMax) + (if spec.unit == "" then "" else " " + spec.unit))
  {
    var source := SourceText(f);
    var hard := InferRange(source, HardRules, HardFallback.min, HardFallback.max);
    var recommended := InferRange(source, RecommendedRules, hard.min, hard.max);
    match f
    case Tuple(key, caption, defaultValue) =>
      var unit := ExtractUnit(caption);
      FieldSpec(Some(key), Some(caption), Some(defaultValue), unit,
                hard.min, hard.max, recommended.min, recommended.max,
                HelperBase(recommended.min, recommended.max) + (if unit == "" then "" else " " + unit))
    case Object(p) =>
      FieldSpec(p.key, p.caption, p.defaultValue, p.unit.GetOr(""),
                p.min.GetOr(hard.min), p.max.GetOr(hard.max),
                p.recommendedMin.GetOr(recommended.min), p.recommendedMax.GetOr(recommended.max),
                p.helperText.GetOr(""))
  }

  /** An object declaration falls back, for its recommended range, on the
      INFERRED hard range even when it overrides `min`/`max` itself. */
  lemma ObjectRecommendedIgnoresOverrides(p: FieldProps)
    requires p.recommendedMin.None? && p.recommendedMax.None?
    requires NoneMatches(RecommendedRules, Lower(SourceText(Object(p))))
    ensures NormalizeField(Object(p)).recommendedMin
            == InferRange(SourceText(Object(p)), HardRules, HardFallback.min, HardFallback.max).min
    ensures NormalizeField(Object(p)).recommendedMax
            == InferRange(SourceText(Object(p)), HardRules, HardFallback.min, HardFallback.max).max
  {
  }

  /** The two forms disagree on a caption with a unit: the tuple form extracts
      it, the object form without a `unit` property leaves it empty. */
  lemma ObjectFormDropsUnit(key: string, caption: string, defaultValue: real)
    requires !NoGroup(caption)
    ensures NormalizeField(Tuple(key, caption, defaultValue)).unit != ""
    ensures NormalizeField(Object(FieldProps(Some(key), Some(caption), Some(defaultValue),
                                             None, None, None, None, None, None))).unit == ""
  {
  }

  /** A caption with a parenthesised unit: "Total dose (Gy)" has unit "Gy". */
  lemma UnitOfTotalDose()
    ensures ExtractUnit("Total dose (Gy)") == "Gy"
  {
    var caption := "Total dose (Gy)";
    assert GroupAt(caption, 11, 14);
    forall a, b | 0 <= a < 11
      ensures !GroupAt(caption, a, b)
    {
      assert caption[a] != '(';
    }
    assert IsLeftmostGroup(caption, 11, 14);
  }

  /** A caption without parentheses has no unit, so its helper text ends with
      the upper bound. */
  lemma NoUnitWithoutParenthesis(key: string, caption: string, defaultValue: real)
    requires forall k | 0 <= k < |caption| :: caption[k] != '('
    ensures NormalizeField(Tuple(key, caption, defaultValue)).unit == ""
    ensures NormalizeField(Tuple(key, caption, defaultValue)).helperText ==
      HelperBase(NormalizeField(Tuple(key, caption, defaultValue)).recommendedMin,
                 NormalizeField(Tuple(key, caption, defaultValue)).recommendedMax)
  {
    assert NoGroup(caption);
  }
}
