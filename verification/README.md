# Radiotherapy calculator dashboard: a verified model

This project models the logic of a browser dashboard of 50 radiotherapy
physics and radiobiology calculators, and of the Python class that mirrors
its formulas. It covers the following.

- **Numbers (`JsNumber`).** JavaScript numbers are idealised as
  `Fin(real) | PosInf | NegInf | NaN`. The special-value rules of `+ - * /`,
  the comparisons and `===` are written out. So are `Math.ceil`, and the
  way a missing payload key (`undefined`) turns into NaN.
- **Range inference (`RangeInference`).** `inferRange` runs two ordered
  rule tables (hard and recommended) as first-match-wins search. Each
  regular expression is an alternation of literal substring and
  end-of-string tests.
- **Field normalisation (`FieldNormalizer`).** `normalizeField` is modelled
  for both forms: the positional `[key, label, default]` tuple and the
  object form. It covers unit extraction from the leftmost parenthesised
  group and the helper text.
- **The formula table (`Formulas`).** One function per calculator
  (ids 1-50), following each `compute` expression's own parse tree.
  `exp`, `log`, `pow`, `sqrt`, `Math.PI` and `erf` are a `MathLib`
  parameter.
- **The catalogue (`Catalogue`).** The five categories and fifty
  calculators as declared, with:
  - the dispatch from a calculator to its formula;
  - the pass/fail formatter of id 48;
  - `categoriesWithValidation`, `calculatorCategories` and the tagged flat
    list `allCalculators`.
- **The dashboard component (`Dashboard`, `QuickAccess`).** This covers
  the pure logic of `src/App.jsx`:
  - `asNumber` and the card payload;
  - result rendering and the unit suffix;
  - the category and search filter and `stats.visible`;
  - `calculatorsById`;
  - the recent and pinned lists (`touchRecent`, `togglePin`, cap 8) and
    their quick-access projections;
  - `focusCalculator`.
- **The Python calculator (`PyCalculator`).** These are the methods of
  `RadiationOncologyCalculator` that the browser table shares. A float
  division by zero or a `log` domain error is an explicit `Raise`
  outcome.
- **Parity (`Parity`).** Lemmas say where the two implementations agree
  and where they part. The therapeutic ratio differs for a negative NTCP.
  Where Python raises, the browser shows an infinity or a non-finite
  value.
- **`RealArith`, `Text`, `Wrappers`.** Small arithmetic facts, ASCII
  lower-casing, substring search, decimal digit strings, and `Option`.

The code has no input-validation engine. `normalizeField` computes the
ranges and helper text, but nothing in `src/App.jsx` reads the ranges,
and every card is always computed.

## Model

| member | source | states |
|---|---|---|
| JsNumber.Ceil | src/calculators.js:110 | `Math.ceil` of a finite value is the least integer not below it; an infinity or NaN passes through unchanged |
| JsNumber.CeilReal | radiation_oncology_calc.py:284 | `math.ceil` returns an integer c with c - 1 < x <= c |
| Text.Lower | src/App.jsx:111 | lower-casing keeps the length and maps every character on its own (ASCII letters only) |
| Text.LowerIdempotent | src/calculators.js:139 | lower-casing an already lower-cased text changes nothing |
| Text.NumberText | src/calculators.js:163 | an integer range bound is written as its plain decimal digits, after a '-' when it is negative (the ±1000000 fallback included); every negative bound starts with '-' |
| Text.NatTextRoundTrip | src/calculators.js:163 | the decimal digits written for a natural number read back as that number |
| RangeInference.Find | src/calculators.js:140 | `find` returns the index of a rule whose pattern matches while no earlier one does, or none exactly when no rule matches |
| RangeInference.FirstMatchUnique | src/calculators.js:140 | at most one rule is the first match for a text |
| RangeInference.InferRange | src/calculators.js:138-145 | the range is the min/max of the first matching rule of the lower-cased text (a matched min of 0 is kept), and the fallback pair when no rule matches |
| RangeInference.ShadowedAlternative | src/calculators.js:117-136 | a literal alternative that contains an earlier rule's literal can never be the reason its rule is chosen: the earlier rule matches first |
| RangeInference.RecommendedFractionsUnreachable | src/calculators.js:125-136 | the recommended `fractions` rule is never the first match on any text, because `fraction` comes earlier |
| RangeInference.RecommendedRangeOfFractions | src/calculators.js:126-131 | a field text mentioning "fractions" gets the recommended range [0, 1.5], not [1, 45] |
| RangeInference.HardRangeOfFractions | src/calculators.js:117-123 | a field text mentioning "fractions" gets the hard range [0, 10] of the first hard rule, never [0, 10000] |
| RangeInference.HardD50Shadowed | src/calculators.js:117-123 | a field text mentioning "d50" never reaches the last hard rule: its hard maximum is at most 1000 |
| RangeInference.RecommendedNotWithinHard | src/calculators.js:117-136 | the two tables are independent: the text "cm" gets hard range [0, 10] but recommended range [0, 50] |
| FieldNormalizer.FirstClose | src/calculators.js:153 | finds the first `)` at or after a position, or reports that there is none |
| FieldNormalizer.GroupFrom | src/calculators.js:153 | returns the leftmost `(...)` group with a non-empty, `)`-free body starting at or after a position, or none exists |
| FieldNormalizer.GroupAtFirstClose | src/calculators.js:153 | a group opened at a position can only close at the first `)` after it |
| FieldNormalizer.ExtractUnit | src/calculators.js:153-158 | the unit is the body of the leftmost parenthesised group, and is empty exactly when the label has no such group |
| FieldNormalizer.NormalizeField | src/calculators.js:147-179 | both forms take the hard range from the hard table (fallback ±1,000,000); the recommended range comes from the recommended table, and its fallback is that field's hard range. The tuple form sets unit and helper text "Rentang rekomendasi {min} - {max}", with " {unit}" added only when the unit is non-empty. The object form's own properties override the inferred ones bound by bound, so an object that overrides only one bound keeps the inferred other one; it defaults unit and helper text to "" |
| FieldNormalizer.ObjectRecommendedIgnoresOverrides | src/calculators.js:167-178 | in the object form, the recommended fallback is the inferred hard range even when the object overrides min/max |
| FieldNormalizer.ObjectFormDropsUnit | src/calculators.js:147-178 | the same caption gives a unit in the tuple form and none in the object form |
| FieldNormalizer.UnitOfTotalDose | src/calculators.js:9 | the label "Total dose (Gy)" has unit "Gy" |
| FieldNormalizer.NoUnitWithoutParenthesis | src/calculators.js:153-163 | a label without `(` has no unit, and its helper text ends with the recommended maximum |
| Formulas.SafeDivide | src/calculators.js:1 | a zero denominator gives +Infinity whatever the numerator (0 and NaN included); otherwise the quotient; a NaN denominator gives NaN |
| Formulas.Bed | src/calculators.js:9 | no contract of its own: id 1, total dose times 1 + d/(alpha/beta), with the browser's operators; `Formulas.Eqd2IsScaledBed`, `Formulas.SbrtIsBed` and `Parity.BedAgrees` state its properties |
| Formulas.Eqd2 | src/calculators.js:10-13 | no contract of its own: id 2, BED over 1 + 2/(alpha/beta); `Formulas.Eqd2IsScaledBed`, `Formulas.Eqd2AtReferenceDose` and `Parity.Eqd2Agrees` state its properties |
| Formulas.Tcp | src/calculators.js:14 | no contract of its own: id 3, the logistic TCP in percent through the `pow` of the math library; no further property is stated |
| Formulas.Ntcp | src/calculators.js:15-18 | no contract of its own: id 4, the Lyman NTCP in percent, 50(1 + erf(t/sqrt 2)), through the library's `erf`; no further property is stated |
| Formulas.TherapeuticRatio | src/calculators.js:19 | no contract of its own: id 5 is `safeDivide(tcp, ntcp)`; `Formulas.TherapeuticRatioZero` and `Parity.TherapeuticRatioAgreesIff` state its properties |
| Formulas.Dmax | src/calculators.js:21 | no contract of its own: the PDD's depth of maximum dose, 1.5 cm at exactly 6 MV, else 3 cm; `Formulas.PddBuildUp` states how it is used |
| Formulas.Pdd | src/calculators.js:20-26 | no contract of its own: id 6; `Formulas.PddBuildUp` states both branches |
| Formulas.Tar | src/calculators.js:27 | no contract of its own: id 7, exp(-mu d)(1 + 0.01 s) with mu 0.04 at exactly 6 MV, else 0.03; no further property is stated |
| Formulas.Tmr | src/calculators.js:28 | no contract of its own: id 8; `Formulas.TmrTpr` states its value and `Parity.TmrAgrees` its agreement with Python |
| Formulas.MonitorUnits | src/calculators.js:29 | no contract of its own: id 9 is `safeDivide(dose, OF * TPR)`; `Formulas.MonitorUnitsZeroFactor` and `Parity.MonitorUnitsAgree` state its properties |
| Formulas.DoseRateBrachy | src/calculators.js:30 | no contract of its own: id 10, A 1000 0.35 / r^2 0.95 with the browser's operators; no further property is stated |
| Formulas.SphereVolume | src/calculators.js:38 | no contract of its own: id 11, (4/3) pi (d/2)^3 with the library's pi; no further property is stated |
| Formulas.EllipsoidVolume | src/calculators.js:39 | no contract of its own: id 12, (4/3) pi a b c, multiplied left to right; no further property is stated |
| Formulas.Ptv | src/calculators.js:40-44 | no contract of its own: id 13, the sphere of the GTV radius plus both margins; no further property is stated |
| Formulas.ConformityIndex | src/calculators.js:45 | no contract of its own: id 14 is `safeDivide(v95, ptvVolume)`; `Parity.ConformityIndexAgrees` states its property |
| Formulas.HomogeneityIndex | src/calculators.js:46 | no contract of its own: id 15 is `safeDivide(d2 - d98, d50)`; `Formulas.HomogeneityIndexIdeal` and `Parity.HomogeneityIndexAgrees` state its properties |
| Formulas.PaddickCi | src/calculators.js:47 | no contract of its own: id 16 is `safeDivide(tvPiv ** 2, tv * piv)`; `Parity.PaddickCiAgrees` states its property |
| Formulas.GradientIndex | src/calculators.js:48 | no contract of its own: id 17 is `safeDivide(v50, vPres)`; `Parity.GradientIndexAgrees` states its property |
| Formulas.OarVolume | src/calculators.js:49 | no contract of its own: id 18, total volume minus overlap; no further property is stated |
| Formulas.DvhPoint | src/calculators.js:50 | no contract of its own: id 19; `Formulas.DvhPointRange` and `Parity.DvhPointAgrees` state its properties |
| Formulas.EquivalentSphereDiameter | src/calculators.js:51 | no contract of its own: id 20, 2 (3V/(4 pi))^(1/3) through the library's `pow`; no further property is stated |
| Formulas.InverseSquare | src/calculators.js:59 | no contract of its own: id 21, I1 (d1/d2)^2; `Formulas.InverseSquareEqualDistances` states its property |
| Formulas.MayneordF | src/calculators.js:60 | no contract of its own: id 22; `Formulas.MayneordEqualSsd` states its property |
| Formulas.OffAxisRatio | src/calculators.js:61-64 | no contract of its own: id 23, a Gaussian with sigma a quarter of the field size; no further property is stated |
| Formulas.ScatterAirRatio | src/calculators.js:65 | no contract of its own: id 24, 0.01 s exp(-0.02 d); no further property is stated |
| Formulas.BackscatterFactor | src/calculators.js:66-69 | no contract of its own: id 25, with a maximum of 1.04 at exactly 6 MV and 1.02 otherwise; no further property is stated |
| Formulas.WedgeTransmission | src/calculators.js:70 | no contract of its own: id 26; `Formulas.WedgeTransmissionLine` and `Formulas.WedgeTransmissionEnds` state its properties |
| Formulas.TrayTransmission | src/calculators.js:71 | no contract of its own: id 27, exp(-mu t) with mu 0.05 at exactly 6 MV, else 0.03; no further property is stated |
| Formulas.Tpr | src/calculators.js:72 | no contract of its own: id 28; `Formulas.TmrTpr` states that it equals TMR |
| Formulas.CollimatorScatter | src/calculators.js:73 | no contract of its own: id 29, 0.95 + 0.05 (1 - exp(-0.05 s)); no further property is stated |
| Formulas.PhantomScatter | src/calculators.js:74 | no contract of its own: id 30, 1 + 0.01 s (1 - exp(-0.05 s)); no further property is stated |
| Formulas.LqSurvival | src/calculators.js:82 | no contract of its own: id 31, exp(-alpha D - beta D^2); `Formulas.CellKillComplementsSurvival` relates it to id 32 |
| Formulas.CellKill | src/calculators.js:83 | no contract of its own: id 32; `Formulas.CellKillComplementsSurvival` and `Parity.CellKillAgrees` state its properties |
| Formulas.EffectiveDose | src/calculators.js:84 | no contract of its own: id 33, physical dose times RBE; no further property is stated |
| Formulas.DoublingTime | src/calculators.js:85 | no contract of its own: id 34; `Formulas.DoublingTimeGuard` and `Parity.DoublingTimeAgrees` state its properties |
| Formulas.ClonogenicSurvival | src/calculators.js:86 | no contract of its own: id 35, exp(-D/D0); no further property is stated |
| Formulas.DoseRecovery | src/calculators.js:87 | no contract of its own: id 36, 1 - exp(-ln 2 t / T); no further property is stated |
| Formulas.GrowthFraction | src/calculators.js:88 | no contract of its own: id 37 is `safeDivide(proliferating, total)`; `Formulas.GrowthFractionUnit` and `Parity.GrowthFractionAgrees` state its properties |
| Formulas.Oer | src/calculators.js:89 | no contract of its own: id 38; `Formulas.OerValue` and `Formulas.OerBounds` state its properties |
| Formulas.DoseModifyingFactor | src/calculators.js:90 | no contract of its own: id 39 is `safeDivide(without, with)`; `Parity.DoseModifyingFactorAgrees` states its property |
| Formulas.IncompleteRepair | src/calculators.js:91 | no contract of its own: id 40, exp(-ln 2 t / T); no further property is stated |
| Formulas.ImplantActivity | src/calculators.js:99 | no contract of its own: id 41, D 100 r^2 / (t 0.35 1000 0.95); no further property is stated |
| Formulas.ParisSystem | src/calculators.js:100 | no contract of its own: id 42, 0.85 times activity per cm times length; no further property is stated |
| Formulas.SourceDecay | src/calculators.js:101 | no contract of its own: id 43, A0 exp(-ln 2 t / T); no further property is stated |
| Formulas.ImrtScore | src/calculators.js:102 | no contract of its own: id 44; `Formulas.ImrtScoreConvex` states its property |
| Formulas.Sbrt | src/calculators.js:103-106 | no contract of its own: id 45; `Formulas.SbrtIsBed` and `Parity.StereotacticAgrees` state its properties |
| Formulas.DutyCycle | src/calculators.js:107 | no contract of its own: id 46 is `safeDivide(gateOn, cycle)`; `Parity.DutyCycleAgrees` states its property |
| Formulas.VanHerkMargin | src/calculators.js:108 | no contract of its own: id 47; `Formulas.VanHerkMarginMonotone` states its property |
| Formulas.DoseConstraint | src/calculators.js:109 | no contract of its own: id 48; `Formulas.DoseConstraintPassFail` and `Parity.DoseConstraintAgrees` state its properties |
| Formulas.TotalTreatmentTime | src/calculators.js:110 | no contract of its own: id 49; `Formulas.TotalTreatmentTimeWeeks` and `Parity.TotalTreatmentTimeAgrees` state its properties |
| Formulas.OttCorrection | src/calculators.js:111 | no contract of its own: id 50; `Formulas.OttCorrectionOverrun` and `Parity.OttCorrectionAgrees` state its properties |
| Formulas.Eqd2IsScaledBed | src/calculators.js:9-13 | for a usable alpha/beta, EQD2 equals BED divided by 1 + 2/(alpha/beta) |
| Formulas.Eqd2AtReferenceDose | src/calculators.js:10-13 | at 2 Gy per fraction EQD2 equals the total dose |
| Formulas.SbrtIsBed | src/calculators.js:103-106 | SBRT (id 45) equals BED at D/n Gy per fraction with alpha/beta 10, on every input |
| Formulas.TmrTpr | src/calculators.js:72 | TPR (id 28) equals TMR (id 8) on every input, is 1 down to 1.5 cm, and beyond that is the attenuation times the field-size factor |
| Formulas.PddBuildUp | src/calculators.js:20-26 | PDD is 100 down to the depth of maximum dose (1.5 cm at exactly 6 MV, 3 cm otherwise); past it, attenuation times the inverse-square factor |
| Formulas.DvhPointRange | src/calculators.js:50 | the DVH point is 0 unless the point dose is below the total (NaN included); for 0 <= dose < total it is 100(1 - dose/total), in (0, 100] |
| Formulas.OttCorrectionOverrun | src/calculators.js:111 | the OTT correction is 0 unless the treatment ran over; then it is the overrun times the daily loss, not negative for a non-negative loss |
| Formulas.DoseConstraintPassFail | src/calculators.js:109 | id 48 computes 1 exactly when the delivered dose is within the constraint, and 0 otherwise |
| Formulas.TotalTreatmentTimeWeeks | src/calculators.js:110 | total time is 7 ceil(n/f) days, so between 7n/f and 7n/f + 7 for f > 0; with f = 0 it is not finite |
| Formulas.DoublingTimeGuard | src/calculators.js:85 | the doubling time is +Infinity whenever the final volume is not above the initial one; otherwise it is t ln 2 / ln(final/initial) |
| Formulas.CellKillComplementsSurvival | src/calculators.js:82-83 | the cell kill fraction (id 32) is 1 minus LQ survival (id 31) |
| Formulas.TherapeuticRatioZero | src/calculators.js:19 | the therapeutic ratio is +Infinity for an NTCP of exactly 0 and the plain quotient otherwise, negative for a negative NTCP and positive TCP |
| Formulas.MonitorUnitsZeroFactor | src/calculators.js:29 | monitor units are +Infinity when output factor times TPR is 0 and the plain quotient otherwise |
| Formulas.ImrtScoreConvex | src/calculators.js:102 | the IMRT score is a convex combination: equal inputs give that value, inputs in [0, 1] a score in [0, 1] |
| Formulas.VanHerkMarginMonotone | src/calculators.js:108 | the van Herk margin grows with both error components and is not negative for non-negative errors |
| Formulas.OerValue | src/calculators.js:89 | the OER is the real quotient (k p + k)/(p + k) whenever p + k is non-zero |
| Formulas.OerBounds | src/calculators.js:89 | for p >= 0 and k >= 1 the OER lies in [1, k] and is 1 at zero oxygen tension |
| Formulas.WedgeTransmissionLine | src/calculators.js:70 | the wedge factor falls linearly, 1 - angle/180 |
| Formulas.WedgeTransmissionEnds | src/calculators.js:70 | no wedge transmits everything; a 90 degree wedge transmits half |
| Formulas.InverseSquareEqualDistances | src/calculators.js:59 | equal distances leave the intensity unchanged |
| Formulas.MayneordEqualSsd | src/calculators.js:60 | equal source-surface distances give a Mayneord factor of 1 |
| Formulas.GrowthFractionUnit | src/calculators.js:88 | a sub-population over a positive total gives a fraction in [0, 1] |
| Formulas.HomogeneityIndexIdeal | src/calculators.js:46 | equal D2 and D98 give 0; a zero D50 gives +Infinity |
| Catalogue.Arg | src/calculators.js:9 | no contract of its own: a key the payload lacks reads as NaN, as destructuring gives `undefined`; `Dashboard.PayloadOf` states which keys a card's payload has |
| Catalogue.Compute | src/calculators.js:9-111 | no contract of its own: dispatches each calculator to its formula with the payload keys its `compute` destructures; `Catalogue.TmrAndTprAgree` and `Dashboard.DoseConstraintCardShowsPassFail` state properties through it |
| Catalogue.Format | src/calculators.js:109 | the formatter yields "PASS ✅" exactly when the value is 1, and "FAIL ❌" otherwise |
| Catalogue.NormalizeCalculator | src/calculators.js:197-200 | a calculator keeps id, name, unit, compute and formatter; every field is normalised in place, in order |
| Catalogue.NormalizeCatalogue | src/calculators.js:195-201 | normalisation keeps every category and calculator, in order, and only replaces field entries |
| Catalogue.Tag | src/calculators.js:205 | each calculator of a category is tagged with that category's id, title and colour, in order |
| Catalogue.AllCalculators | src/calculators.js:204-206 | the flat list holds exactly as many entries as the categories hold calculators |
| Catalogue.AllCalculatorsPosition | src/calculators.js:204-206 | calculator j of category i sits in the flat list right after all calculators of the earlier categories, tagged with its category |
| Catalogue.EntryOrigin | src/calculators.js:204-206 | every entry of the flat list is a calculator of one category, tagged with that category |
| Catalogue.CatalogueSize | src/calculators.js:3-114 | the catalogue holds 5 categories and 50 calculators, before and after normalisation |
| Catalogue.TmrAndTprAgree | src/calculators.js:28 | the calculators with ids 8 and 28 compute the same value on every payload |
| Catalogue.DoseConstraintCalculator | src/calculators.js:109 | id 48 has unit "status", the pass/fail formatter, and the fields deliveredDose and constraintDose |
| Dashboard.ParseNumber | src/App.jsx:5 | no contract of its own: `Number(text)` for the empty text and digit strings, a parameter otherwise; `Dashboard.AsNumber` states the result |
| Dashboard.AsNumber | src/App.jsx:5 | every falsy value (empty text, null, undefined, 0, NaN) reads as 0; NaN only comes from non-empty text that is not all digits; digit text reads as its value |
| Dashboard.EmptyAndZeroAgree | src/App.jsx:5 | an empty box and a box holding "0" both read as 0 |
| Dashboard.AsNumberOfNatText | src/App.jsx:5 | the decimal text of a natural number reads back as that number |
| Dashboard.PayloadOf | src/App.jsx:259-261 | the payload has exactly the held keys, each read by `asNumber` |
| Dashboard.Render | src/App.jsx:263 | the formatter's text when there is one; otherwise the 4-decimal rendering exactly when the result is finite, else the infinity glyph |
| Dashboard.UnitSuffix | src/App.jsx:305 | the unit is shown after the result except exactly when it is "status" |
| Dashboard.Card | src/App.jsx:259-263 | no contract of its own: a card's rendered result and unit suffix; `Dashboard.DoseConstraintCardShowsPassFail` states it for id 48 |
| Dashboard.DoseConstraintCardShowsPassFail | src/App.jsx:259-263 | the id 48 card shows PASS exactly when the delivered dose is within the constraint, FAIL otherwise, and no unit |
| Dashboard.Keep | src/App.jsx:109-113 | no contract of its own: the filter condition of one calculator; `Dashboard.ShownIff` states that it decides what is shown |
| Dashboard.KeepCalculators | src/App.jsx:109-113 | a calculator is kept exactly when the category selection matches ('all' or its id) and the lower-cased query is a substring of the lower-cased "name title" |
| Dashboard.FilterCategories | src/App.jsx:105-116 | no returned category is empty, and there are at most as many as before |
| Dashboard.FilterEntries | src/App.jsx:109-112 | the reference filter on the flat list keeps exactly the entries that pass |
| Dashboard.FilterThenFlatten | src/App.jsx:105-116 | filtering categories and then flattening equals filtering the flat list, order included |
| Dashboard.ShownIff | src/App.jsx:105-116 | a calculator is shown exactly when it is in the catalogue and passes the filter |
| Dashboard.Visible | src/App.jsx:122 | no contract of its own: `stats.visible`; `Dashboard.VisibleCountsKept` states its value |
| Dashboard.VisibleCountsKept | src/App.jsx:122 | `stats.visible` equals the number of tagged calculators that pass the filter |
| Dashboard.KeepAllCalculators | src/App.jsx:109-113 | with an empty query and 'all', every calculator of a category is kept |
| Dashboard.DefaultFilterKeepsAll | src/App.jsx:105-116 | with an empty query and 'all', a catalogue without empty categories is unchanged |
| Dashboard.ById | src/App.jsx:118 | lookup by id finds nothing exactly when no entry has that id; otherwise it finds the last entry with that id |
| Dashboard.Known | src/App.jsx:147 | the entries of the given ids that the catalogue knows: each result entry is the lookup's pick for one of the ids, each known id's entry is present, and when every id is known the i-th entry is the i-th id's |
| Dashboard.KnownAppend | src/App.jsx:147 | looking up two id lists one after the other gives the two lookups one after the other, so the entries follow the order of their ids |
| Dashboard.Unpinned | src/App.jsx:148 | exactly the recent ids that are not pinned, no more of them than recent ids |
| Dashboard.UnpinnedKeepsOrder | src/App.jsx:148 | the unpinned recent ids keep their order from the recent list |
| Dashboard.QuickPinned | src/App.jsx:147 | no contract of its own: `Known` of the pinned ids; `Dashboard.QuickAccessGroups` states its content |
| Dashboard.QuickRecent | src/App.jsx:148 | no contract of its own: `Known` of the unpinned recent ids; `Dashboard.UnpinnedKeepsOrder` and `Dashboard.KnownAppend` give its order |
| Dashboard.ShownRecent | src/App.jsx:242 | no contract of its own: the first five quick-recent entries; `Dashboard.QuickAccessGroups` states its bound and content |
| Dashboard.QuickAccessGroups | src/App.jsx:147-148 | the pinned group holds the known pinned calculators; the recent group shows the first at most 5 entries of the quick-recent list, none pinned and none unknown |
| Dashboard.FocusCalculator | src/App.jsx:134-145 | an unknown id changes nothing; a known one selects its category, clears the query and touches the recent list |
| Dashboard.FocusShowsCalculator | src/App.jsx:134-139 | after focusing a catalogue calculator it is shown by the filter and heads the recent list |
| QuickAccess.Take | src/App.jsx:127 | `slice(0, n)` is the prefix of length min(n, length) |
| QuickAccess.Without | src/App.jsx:127 | the filter keeps exactly the other ids, and is shorter exactly when the id was present |
| QuickAccess.TouchRecent | src/App.jsx:126-128 | the id heads the result and occurs nowhere else; the length is one more than the other ids', capped at 8, so the seven most recent other ids stay on a full list; the rest is a prefix of the previous list without the id |
| QuickAccess.TouchRecentKeepsOrder | src/App.jsx:127 | the ids after the head keep their relative order from the previous list |
| QuickAccess.TouchRecentKeepsDistinct | src/App.jsx:127 | a list without repeated ids stays without them |
| QuickAccess.TouchRecentIdempotent | src/App.jsx:127 | touching the same id twice equals touching it once |
| QuickAccess.TogglePin | src/App.jsx:130-132 | the id is in the result exactly when it was not pinned; an added id is in front of a prefix of the old list, one longer than the old list but capped at 8; a removal is exactly the old list without that id |
| QuickAccess.TogglePinRemovalKeepsOrder | src/App.jsx:131 | unpinning keeps the other pins in their old order |
| QuickAccess.TogglePinTwice | src/App.jsx:131 | pinning and unpinning an id returns the original list when it had room |
| QuickAccess.TogglePinTwiceDropsLast | src/App.jsx:131 | with eight or more pins, pinning and unpinning a new id loses the pins past the seventh |
| PyCalculator.BiologicallyEffectiveDose | radiation_oncology_calc.py:28-31 | raises ZeroDivisionError exactly when alpha/beta is 0 |
| PyCalculator.EquivalentDose2Gy | radiation_oncology_calc.py:33-37 | raises exactly when alpha/beta is 0 or -2 |
| PyCalculator.TherapeuticRatio | radiation_oncology_calc.py:50-52 | infinite exactly when NTCP <= 0, the quotient otherwise |
| PyCalculator.MonitorUnits | radiation_oncology_calc.py:77-81 | raises exactly when the output factor or TPR is 0 |
| PyCalculator.DoseVolumeHistogramPoint | radiation_oncology_calc.py:131-133 | 0 whenever the dose is not below the total; raises exactly when a lower dose meets a total of 0 |
| PyCalculator.TumorDoublingTime | radiation_oncology_calc.py:202-207 | infinite when the tumour did not grow; raises on an initial volume of 0 or a non-positive ratio; any other growth gives a finite time |
| PyCalculator.StereotacticDose | radiation_oncology_calc.py:260-264 | raises exactly when the number of fractions is 0 |
| PyCalculator.TotalTreatmentTime | radiation_oncology_calc.py:281-285 | raises exactly when the fractions per week are 0 |
| PyCalculator.TrueDivide | radiation_oncology_calc.py:108-110 | a float quotient raises ZeroDivisionError exactly on a zero denominator; otherwise the value times the denominator is the numerator |
| PyCalculator.TissueMaximumRatio | radiation_oncology_calc.py:70-75 | no contract of its own: 1.0 down to 1.5 cm, then the exponential times the field factor; `PyCalculator.TprIsTmr` and `Parity.TmrAgrees` state its properties |
| PyCalculator.TissuePhantomRatio | radiation_oncology_calc.py:175-177 | no contract of its own: delegates to the TMR; `PyCalculator.TprIsTmr` states that |
| PyCalculator.ConformityIndex | radiation_oncology_calc.py:108-110 | raises exactly on a zero PTV volume; otherwise the index times the PTV volume is the 95% volume |
| PyCalculator.HomogeneityIndex | radiation_oncology_calc.py:112-115 | raises exactly on a zero D50; otherwise the index times D50 is D2 - D98, so equal D2 and D98 give 0 |
| PyCalculator.PaddickConformityIndex | radiation_oncology_calc.py:117-119 | raises exactly when TV or PIV is 0; otherwise the index times TV PIV is TV_PIV squared |
| PyCalculator.GradientIndex | radiation_oncology_calc.py:121-124 | raises exactly on a zero prescription volume; otherwise the index times it is the 50% volume |
| PyCalculator.TumorGrowthFraction | radiation_oncology_calc.py:218-221 | raises exactly on a zero total; otherwise the fraction times the total is the proliferating count |
| PyCalculator.DoseModifyingFactor | radiation_oncology_calc.py:227-230 | raises exactly on a zero modified dose; otherwise the factor times it is the unmodified dose |
| PyCalculator.RespiratoryGatingDutyCycle | radiation_oncology_calc.py:266-269 | raises exactly on a zero breathing cycle; otherwise the duty cycle times the cycle is the gate-on time |
| PyCalculator.LinearQuadraticSurvival | radiation_oncology_calc.py:189-192 | no contract of its own: exp(-alpha D - beta D^2); `PyCalculator.CellKillComplementsSurvival` relates it to the cell kill fraction |
| PyCalculator.CellKillFraction | radiation_oncology_calc.py:194-196 | no contract of its own: 1 minus the LQ survival; `PyCalculator.CellKillComplementsSurvival` and `Parity.CellKillAgrees` state its properties |
| PyCalculator.DoseConstraintEvaluation | radiation_oncology_calc.py:276-279 | no contract of its own: whether the delivered dose is within the constraint; `Parity.DoseConstraintAgrees` ties it to the browser's 1/0 |
| PyCalculator.OverallTreatmentTimeCorrection | radiation_oncology_calc.py:287-293 | no contract of its own: 0 without an overrun, else overrun times loss; `PyCalculator.OttCorrectionNonNegative` and `Parity.OttCorrectionAgrees` state its properties |
| PyCalculator.Eqd2IsScaledBed | radiation_oncology_calc.py:33-37 | EQD2 is BED divided by 1 + 2/(alpha/beta) |
| PyCalculator.Eqd2AtReferenceDose | radiation_oncology_calc.py:33-37 | at 2 Gy per fraction EQD2 returns the total dose |
| PyCalculator.StereotacticIsBed | radiation_oncology_calc.py:260-264 | the stereotactic dose equals `biologically_effective_dose(D, D/n, 10)` |
| PyCalculator.TprIsTmr | radiation_oncology_calc.py:175-177 | TPR equals TMR on all inputs, and TMR is 1.0 down to 1.5 cm |
| PyCalculator.CellKillComplementsSurvival | radiation_oncology_calc.py:189-196 | the cell kill fraction and the LQ survival sum to 1 |
| PyCalculator.TotalTreatmentTimeWeeks | radiation_oncology_calc.py:281-285 | for f > 0 the total time is a multiple of 7, at least 7n/f and below 7n/f + 7 |
| PyCalculator.OttCorrectionNonNegative | radiation_oncology_calc.py:287-293 | the correction is the overrun times the loss, and never negative for a non-negative loss |
| PyCalculator.DoublingTimeOfGrowth | radiation_oncology_calc.py:202-207 | a tumour that grew from a positive volume over a positive time gets a finite positive doubling time |
| Parity.BedAgrees | radiation_oncology_calc.py:28-31 | BED agrees with the browser whenever alpha/beta is non-zero; at 0 Python raises and the browser's value is not finite |
| Parity.Eqd2Agrees | radiation_oncology_calc.py:33-37 | EQD2 agrees for alpha/beta outside {0, -2}; at -2 Python raises and the browser's value is not finite |
| Parity.TherapeuticRatioAgreesIff | radiation_oncology_calc.py:50-52 | the two therapeutic ratios agree exactly when NTCP is not negative |
| Parity.MonitorUnitsAgree | radiation_oncology_calc.py:77-81 | monitor units agree when output factor times TPR is non-zero; otherwise Python raises and the browser shows +Infinity |
| Parity.TmrAgrees | radiation_oncology_calc.py:70-75 | with the same exponential, TMR and TPR agree on all inputs |
| Parity.CellKillAgrees | radiation_oncology_calc.py:189-196 | with the same exponential, the cell kill fractions agree |
| Parity.DoseConstraintAgrees | radiation_oncology_calc.py:276-279 | the browser's 1/0 is 1 exactly when Python answers True |
| Parity.TotalTreatmentTimeAgrees | radiation_oncology_calc.py:281-285 | total treatment times agree for a non-zero weekly rate; at 0 Python raises and the browser's value is not finite |
| Parity.OttCorrectionAgrees | radiation_oncology_calc.py:287-293 | the OTT corrections agree on all inputs |
| Parity.DvhPointAgrees | radiation_oncology_calc.py:131-133 | the DVH points agree whenever Python returns; where it raises the browser shows +Infinity |
| Parity.StereotacticAgrees | radiation_oncology_calc.py:260-264 | the stereotactic BEDs agree for a non-zero number of fractions; with none Python raises and the browser's value is not finite |
| Parity.DoublingTimeAgrees | radiation_oncology_calc.py:202-207 | both doubling times are infinite when the tumour did not grow; with the same logarithm they agree whenever Python returns |
| Parity.SafeDivideAgrees | src/calculators.js:1 | `safeDivide` gives Python's quotient on a non-zero denominator; on a zero one Python raises and the browser answers +Infinity |
| Parity.ConformityIndexAgrees | radiation_oncology_calc.py:108-110 | conformity indices agree on a non-zero PTV volume; on a zero one Python raises and the browser shows +Infinity |
| Parity.HomogeneityIndexAgrees | radiation_oncology_calc.py:112-115 | homogeneity indices agree on a non-zero D50; on a zero one Python raises and the browser shows +Infinity |
| Parity.PaddickCiAgrees | radiation_oncology_calc.py:117-119 | Paddick indices agree when TV times PIV is non-zero; otherwise Python raises and the browser shows +Infinity |
| Parity.GradientIndexAgrees | radiation_oncology_calc.py:121-124 | gradient indices agree on a non-zero prescription volume; on a zero one Python raises and the browser shows +Infinity |
| Parity.GrowthFractionAgrees | radiation_oncology_calc.py:218-221 | growth fractions agree on a non-zero total; on a zero one Python raises and the browser shows +Infinity |
| Parity.DoseModifyingFactorAgrees | radiation_oncology_calc.py:227-230 | dose modifying factors agree on a non-zero modified dose; on a zero one Python raises and the browser shows +Infinity |
| Parity.DutyCycleAgrees | radiation_oncology_calc.py:266-269 | duty cycles agree on a non-zero breathing cycle; on a zero one Python raises and the browser shows +Infinity |

## Left out

- Floating-point rounding: numbers are exact reals. Overflow to an infinity, underflow, `-0` and the last-bit results of `+ - * /` are not modelled.
- `Math.exp`, `Math.log`, non-integer `**`, `Math.sqrt`, `Math.PI` and the `erf` polynomial (src/calculators.js:181-193) are not defined. They are fields of the `MathLib` parameter, and Python's `math.exp`/`math.log` are function parameters. Results that depend on them are related, not computed.
- `toFixed(4)` digit formatting (src/App.jsx:263): the model records that a finite result is shown with four decimals, not the digits themselves.
- Text.NumberText: a non-integer range bound is written with at most 20 fraction digits, stopping where its decimal expansion ends, rather than in the shortest form that reads back as the same double. The only non-integer bound in the two tables, 1.5, comes out as "1.5" either way.
- `Number(text)` beyond the empty string and plain digit strings is a parameter (`parseOther`): decimals, signs, exponents and surrounding white space are not parsed.
- Regular expressions are not run by an engine. Each rule pattern is a list of literal substring tests and end-of-string tests (`m$`, `gamma$`, `k$`), which is all these patterns use.
- Text.Lower: maps ASCII letters only, one character to one. JavaScript `toLowerCase` also maps non-ASCII letters, some to other letters (U+212A KELVIN SIGN becomes "k") and one to two code units (U+0130). So a search query typed with such characters (src/App.jsx:111, free user text) can match a calculator in the browser where the model matches none, and the lower-cased text can be longer. The catalogue's own names, titles, keys and labels contain no letter affected by this.
- Browser plumbing is not modelled: `localStorage` and `readJson` (src/App.jsx:11-20, 39-49), the resize and keyboard handlers, the drawer focus trap, `requestAnimationFrame`/`scrollIntoView`, the sidebar and mobile state, and all markup.
- `categoryCounts` (src/App.jsx:100-103) only feeds a badge. It is the per-category length, which `Catalogue.CatalogueSize` fixes for the whole catalogue.
- The initial input values (src/App.jsx:34) and the field inputs (src/App.jsx:286) destructure each field as a `[key, label, default]` array. By then `categoriesWithValidation` has turned every field into a plain object (src/calculators.js:154-164, 199). Array destructuring of a plain object throws a TypeError, so as written the `useState` initializer at src/App.jsx:31-37 throws on the first render and no card is ever shown. `Dashboard.PayloadOf`, `Dashboard.Render` and `Dashboard.Card` therefore describe what a card does once the held values exist; they take those values as a given map, and the model does not follow the failing path.
- The input-validation engine (hard errors blocking a computation, recommended-range warnings) is absent from the code, so it is not modelled.
- The remaining Python methods are not modelled: TCP, NTCP, PDD, TAR, brachytherapy dose rate, volumes, PTV, equivalent sphere diameter, the inverse-square and Mayneord factors, off-axis, scatter and transmission factors, effective dose, clonogenic survival, recovery and repair factors, OER, implant activity, Paris system, source decay, IMRT score and van Herk margin. They differ from the browser in ways the model does not record:
  - Python TCP (radiation_oncology_calc.py:39-42) and NTCP (radiation_oncology_calc.py:44-48) return fractions; the browser (src/calculators.js:14-18) returns percentages, 100 times as large. Python NTCP uses `math.erf`, the browser a polynomial approximation (src/calculators.js:181-193).
  - Every Python float division by zero in these methods raises ZeroDivisionError, where the browser goes on with an infinity or NaN. Examples:
    - TCP at dose 0;
    - NTCP at m·TD50 = 0 (radiation_oncology_calc.py:47);
    - PDD at SSD + depth = 0 (:61);
    - dose rate and implant activity at distance or time 0;
    - the inverse-square factor at distance 2 = 0 (:144);
    - the Mayneord factor at SSD2 + depth = 0 or SSD1 = 0 (:148);
    - the off-axis ratio at field size 0 (:154);
    - clonogenic survival at D0 = 0;
    - the recovery, repair and decay factors at a half-time of 0;
    - the OER at p + k = 0.
  - Python's `**` on a negative base with a fractional exponent returns a complex number in the volume formulas; the browser gives NaN.
  The ratio methods the browser routes through `safeDivide` (conformity, homogeneity, Paddick, gradient, growth fraction, dose modifying factor, duty cycle) are modelled, with their Parity lemmas. Python's `main()` (radiation_oncology_calc.py:298-441) only prints.
- PyCalculator.TumorDoublingTime: `log` is a parameter, so its zero at 1 is not known to the model. A zero logarithm of the volume ratio is modelled as the ZeroDivisionError Python would raise; the guard rules that case out for the real logarithm. That the logarithm is positive past 1 is a hypothesis of `DoublingTimeOfGrowth`. Float overflow is not modelled.
- PyCalculator.TotalTreatmentTime: the arguments are reals, not Python `int`s. An integer argument is the special case.
- PyCalculator.MonitorUnits, PyCalculator.TotalTreatmentTime and PyCalculator.OverallTreatmentTimeCorrection: Python's default arguments are not modelled (`output_factor=1.0` and `tpr=1.0` at radiation_oncology_calc.py:77-79, `fractions_per_week=5` at :281-282, `dose_loss_per_day_gy=0.6` at :287-288). Every argument is passed explicitly; a call relying on a default is the call with that value.
