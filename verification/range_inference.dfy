/** Range inference: a small ordered rule engine that assigns a numeric
    range to a form field from the text of its key and label
    (`hardRangeDefaults`, `recommendedRangeDefaults` and `inferRange` in
    src/calculators.js). The first rule whose pattern matches wins. */
module RangeInference {
  import opened Wrappers
  import opened Text

  /** One alternative of a rule's regular expression: a literal found
      anywhere, or a literal anchored at the end (`m$`). */
  datatype Alt = Sub(lit: string) | Suffix(lit: string)

  /** `{ pattern, min, max }`; the pattern is the alternation of `pattern`. */
  datatype Rule = Rule(pattern: seq<Alt>, min: real, max: real)

  datatype Range = Range(min: real, max: real)

  predicate AltMatches(a: Alt, t: string) {
    match a
    case Sub(p) => Contains(t, p)
    case Suffix(p) => EndsWith(t, p)
  }

  /** `pattern.test(t)`. */
  predicate RuleMatches(rule: Rule, t: string) {
    exists k | 0 <= k < |rule.pattern| :: AltMatches(rule.pattern[k], t)
  }

  /** Rule `i` is the one `Array.prototype.find` returns for text `t`. */
  predicate IsFirstMatch(rules: seq<Rule>, t: string, i: int) {
    0 <= i < |rules| && RuleMatches(rules[i], t) &&
    forall j | 0 <= j < i :: !RuleMatches(rules[j], t)
  }

  predicate NoneMatches(rules: seq<Rule>, t: string) {
    forall j | 0 <= j < |rules| :: !RuleMatches(rules[j], t)
  }

  /** The index of the first rule at or after `from` that matches `t`. */
  function FindFrom(rules: seq<Rule>, t: string, from: nat): (r: Option<nat>)
    requires from <= |rules|
    requires forall j | 0 <= j < from :: !RuleMatches(rules[j], t)
    ensures r.Some? ==> IsFirstMatch(rules, t, r.value)
    ensures r.None? ==> NoneMatches(rules, t)
    decreases |rules| - from
  {
    if from == |rules| then None
    else if RuleMatches(rules[from], t) then Some(from)
    else FindFrom(rules, t, from + 1)
  }

  /** `defaults.find(({ pattern }) => pattern.test(t))`, as an index. */
  function Find(rules: seq<Rule>, t: string): (r: Option<nat>)
    ensures r.Some? ==> IsFirstMatch(rules, t, r.value)
    ensures r.None? ==> NoneMatches(rules, t)
  {
    FindFrom(rules, t, 0)
  }

  /** There is at most one first match. */
  lemma FirstMatchUnique(rules: seq<Rule>, t: string, i: int, j: int)
    requires IsFirstMatch(rules, t, i) && IsFirstMatch(rules, t, j)
    ensures i == j
  {
  }

  /** `inferRange(sourceText, defaults, fallbackMin, fallbackMax)`: the
      bounds of the first rule matching the lower-cased text, or the
      fallback pair when no rule matches. Every rule carries both bounds, so
      `matched?.min ?? fallbackMin` keeps a matched bound of 0. */
  function InferRange(source: string, rules: seq<Rule>, fallbackMin: real, fallbackMax: real): (r: Range)
    ensures forall i | IsFirstMatch(rules, Lower(source), i) :: r == Range(rules[i].min, rules[i].max)
    ensures NoneMatches(rules, Lower(source)) ==> r == Range(fallbackMin, fallbackMax)
  {
    var lower := Lower(source);
    match Find(rules, lower)
    case Some(i) => Range(rules[i].min, rules[i].max)
    case None => Range(fallbackMin, fallbackMax)
  }

  /** The hard-range table, src/calculators.js:117-123. */
  const HardRules: seq<Rule> := [
    Rule([Sub("fraction"), Sub("ratio"), Sub("ntcp"), Sub("tcp"), Suffix("m"), Suffix("gamma"),
          Sub("outputfactor"), Sub("tpr"), Sub("tmr"), Sub("conformity"), Sub("oarsparing"),
          Sub("targetcoverage"), Sub("rbe"), Sub("alpha"), Sub("beta"), Suffix("k"), Sub("duty"),
          Sub("survival")], 0.0, 10.0),
    Rule([Sub("percent"), Sub("%"), Sub("v95"), Sub("v50"), Sub("d2"), Sub("d50"), Sub("d98"),
          Sub("dose point")], 0.0, 1000.0),
    Rule([Sub("distance"), Sub("depth"), Sub("diameter"), Sub("margin"), Sub("cm"), Sub("length")],
         0.0, 300.0),
    Rule([Sub("time"), Sub("days"), Sub("hr"), Sub("sec")], 0.0, 3650.0),
    Rule([Sub("dose"), Sub("gy"), Sub("cgy"), Sub("td50"), Sub("d50"), Sub("d0"), Sub("half"),
          Sub("activity"), Sub("ci"), Sub("mu"), Sub("volume"), Sub("cells"), Sub("fractions"),
          Sub("ssd"), Sub("field size"), Sub("po2")], 0.0, 10000.0)
  ]

  /** The recommended-range table, src/calculators.js:125-136. */
  const RecommendedRules: seq<Rule> := [
    Rule([Sub("fraction"), Sub("ratio"), Sub("ntcp"), Sub("tcp"), Sub("conformity"), Sub("oarsparing"),
          Sub("targetcoverage"), Sub("rbe"), Sub("alpha"), Sub("beta"), Sub("survival")], 0.0, 1.5),
    Rule([Sub("distance"), Sub("depth"), Sub("diameter"), Sub("margin"), Sub("cm"), Sub("length")],
         0.0, 50.0),
    Rule([Sub("time"), Sub("days")], 0.0, 365.0),
    Rule([Sub("hr")], 0.0, 48.0),
    Rule([Sub("sec")], 0.0, 120.0),
    Rule([Sub("fractions")], 1.0, 45.0),
    Rule([Sub("dose"), Sub("gy"), Sub("cgy"), Sub("td50"), Sub("d50"), Sub("d0")], 0.0, 100.0),
    Rule([Sub("activity"), Sub("ci")], 0.0, 30.0),
    Rule([Sub("volume"), Sub("cc")], 0.0, 5000.0),
    Rule([Sub("cells")], 0.0, 1000000000.0)
  ]

  /** The hard range of a field no hard rule recognises. */
  const HardFallback := Range(-1000000.0, 1000000.0)

  /** Shadowing: if an alternative `Sub(q)` of rule `j` contains the literal
      of an alternative `Sub(p)` of an earlier rule `i`, then any text that
      matches through `q` is claimed by rule `i` or an even earlier rule. */
  lemma {:induction false} ShadowedAlternative(rules: seq<Rule>, i: nat, ki: nat, j: nat, kj: nat, t: string)
    requires i < j < |rules|
    requires ki < |rules[i].pattern| && rules[i].pattern[ki].Sub?
    requires kj < |rules[j].pattern| && rules[j].pattern[kj].Sub?
    requires Contains(rules[j].pattern[kj].lit, rules[i].pattern[ki].lit)
    requires Contains(t, rules[j].pattern[kj].lit)
    ensures RuleMatches(rules[i], t)
    ensures forall m | IsFirstMatch(rules, t, m) :: m <= i
  {
    ContainsTrans(t, rules[j].pattern[kj].lit, rules[i].pattern[ki].lit);
    assert AltMatches(rules[i].pattern[ki], t);
  }

  /** The recommended `fractions` rule (src/calculators.js:131) can never be
      selected: every text containing "fractions" contains "fraction", which
      the first rule (src/calculators.js:126) already claims. */
  lemma RecommendedFractionsUnreachable(t: string)
    ensures !IsFirstMatch(RecommendedRules, t, 5)
  {
    if RuleMatches(RecommendedRules[5], t) {
      var k :| 0 <= k < |RecommendedRules[5].pattern| && AltMatches(RecommendedRules[5].pattern[k], t);
      assert k == 0;
      assert ContainsAt("fractions", "fraction", 0);
      ShadowedAlternative(RecommendedRules, 0, 0, 5, 0, t);
    }
  }

  /** A source text mentioning "fractions" gets the recommended range
      [0, 1.5] of the first rule, never [1, 45]. */
  lemma RecommendedRangeOfFractions(source: string)
    requires Contains(Lower(source), "fractions")
    ensures InferRange(source, RecommendedRules, 0.0, 0.0) == Range(0.0, 1.5)
  {
    assert ContainsAt("fractions", "fraction", 0);
    ShadowedAlternative(RecommendedRules, 0, 0, 5, 0, Lower(source));
    var r := Find(RecommendedRules, Lower(source));
  }

  /** The `fractions` alternative of the last hard rule
      (src/calculators.js:122) is shadowed by `fraction` in the first
      (src/calculators.js:118): such a text gets the hard range [0, 10]. */
  lemma HardRangeOfFractions(source: string, fallbackMin: real, fallbackMax: real)
    requires Contains(Lower(source), "fractions")
    ensures InferRange(source, HardRules, fallbackMin, fallbackMax) == Range(0.0, 10.0)
  {
    assert ContainsAt("fractions", "fraction", 0);
    ShadowedAlternative(HardRules, 0, 0, 4, 12, Lower(source));
    var r := Find(HardRules, Lower(source));
  }

  /** The `d50` alternative of the last hard rule is shadowed by the same
      literal in the second (src/calculators.js:119): such a text never gets
      the range [0, 10000]. */
  lemma HardD50Shadowed(source: string)
    requires Contains(Lower(source), "d50")
    ensures InferRange(source, HardRules, 0.0, 0.0).max <= 1000.0
  {
    assert ContainsAt("d50", "d50", 0);
    ShadowedAlternative(HardRules, 1, 5, 4, 4, Lower(source));
    var r := Find(HardRules, Lower(source));
  }

  /** The two tables are independent: a field whose text ends in "cm" is
      claimed by the `m$` alternative of the first hard rule, range [0, 10],
      but by the `cm` recommended rule, range [0, 50]. So a recommended range
      need not lie inside the hard range. */
  lemma RecommendedNotWithinHard()
    ensures InferRange("cm", HardRules, HardFallback.min, HardFallback.max) == Range(0.0, 10.0)
    ensures InferRange("cm", RecommendedRules, 0.0, 10.0) == Range(0.0, 50.0)
  {
    var t := "cm";
    assert Lower(t) == t;
    assert AltMatches(HardRules[0].pattern[4], t);
    assert IsFirstMatch(HardRules, t, 0);
    assert ContainsAt(t, "cm", 0);
    assert AltMatches(RecommendedRules[1].pattern[4], t);
    assert !RuleMatches(RecommendedRules[0], t);
    assert IsFirstMatch(RecommendedRules, t, 1);
  }
}
