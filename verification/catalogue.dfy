/** The calculator catalogue (src/calculators.js:3-114 and 195-206): five
    categories of calculators, each calculator with its input fields, its
    formula and an optional result formatter; the normalisation pass that
    replaces every field declaration by its normalised specification; and
    the flattened list of all calculators tagged with their category. */
module Catalogue {
  import opened Wrappers
  import opened JsNumber
  import opened FieldNormalizer
  import Formulas

  /** Which `compute` a calculator runs: one constructor per calculator. */
  datatype Formula =
      Bed | Eqd2 | Tcp | Ntcp | TherapeuticRatio
    | Pdd | Tar | Tmr | MonitorUnits | DoseRateBrachy
    | SphereVolume | EllipsoidVolume | Ptv | ConformityIndex | HomogeneityIndex
    | PaddickCi | GradientIndex | OarVolume | DvhPoint | EquivalentSphereDiameter
    | InverseSquare | MayneordF | OffAxisRatio | ScatterAirRatio | BackscatterFactor
    | WedgeTransmission | TrayTransmission | Tpr | CollimatorScatter | PhantomScatter
    | LqSurvival | CellKill | EffectiveDose | DoublingTime | ClonogenicSurvival
    | DoseRecovery | GrowthFraction | Oer | DoseModifyingFactor | IncompleteRepair
    | ImplantActivity | ParisSystem | SourceDecay | ImrtScore | Sbrt
    | DutyCycle | VanHerkMargin | DoseConstraint | TotalTreatmentTime | OttCorrection

  /** The only formatter in the catalogue is the pass/fail one of id 48. */
  datatype Formatter = PassFail

  /** A calculator whose fields are declarations (`F = FieldDecl`) or, after
      normalisation, field specifications (`F = FieldSpec`). */
  datatype Calculator<F> = Calculator(
    id: int,
    name: string,
    unit: string,
    fields: seq<F>,
    formula: Formula,
    formatter: Option<Formatter>)

  datatype Category<F> = Category(
    id: string,
    title: string,
    color: string,
    calculators: seq<Calculator<F>>)

  /** An element of `allCalculators`: the calculator with its category's
      id, title and colour copied onto it. */
  datatype Entry = Entry(
    calculator: Calculator<FieldSpec>,
    categoryId: string,
    categoryTitle: string,
    color: string)

  /** The object a `compute` destructures. */
  type Payload = map<string, Num>

  /** Destructuring a key the payload lacks yields `undefined`, which every
      operator the formulas use treats as NaN. */
  function Arg(p: Payload, key: string): Num {
    if key in p then p[key] else NaN
  }

  /** Runs a calculator's `compute` on a payload. */
  function Compute(f: Formula, lib: MathLib, p: Payload): Num {
    match f
    case Bed => Formulas.Bed(Arg(p, "totalDose"), Arg(p, "dosePerFx"), Arg(p, "alphaBeta"))
    case Eqd2 => Formulas.Eqd2(Arg(p, "totalDose"), Arg(p, "dosePerFx"), Arg(p, "alphaBeta"))
    case Tcp => Formulas.Tcp(lib, Arg(p, "doseGy"), Arg(p, "d50"), Arg(p, "gamma"))
    case Ntcp => Formulas.Ntcp(lib, Arg(p, "doseGy"), Arg(p, "td50"), Arg(p, "m"))
    case TherapeuticRatio => Formulas.TherapeuticRatio(Arg(p, "tcp"), Arg(p, "ntcp"))
    case Pdd => Formulas.Pdd(lib, Arg(p, "depthCm"), Arg(p, "ssdCm"), Arg(p, "energyMv"))
    case Tar => Formulas.Tar(lib, Arg(p, "depthCm"), Arg(p, "fieldSizeCm"), Arg(p, "energyMv"))
    case Tmr => Formulas.Tmr(lib, Arg(p, "depthCm"), Arg(p, "fieldSizeCm"))
    case MonitorUnits => Formulas.MonitorUnits(Arg(p, "doseCgy"), Arg(p, "outputFactor"), Arg(p, "tpr"))
    case DoseRateBrachy => Formulas.DoseRateBrachy(Arg(p, "sourceActivityCi"), Arg(p, "distanceCm"))
    case SphereVolume => Formulas.SphereVolume(lib, Arg(p, "diameterCm"))
    case EllipsoidVolume => Formulas.EllipsoidVolume(lib, Arg(p, "aCm"), Arg(p, "bCm"), Arg(p, "cCm"))
    case Ptv => Formulas.Ptv(lib, Arg(p, "gtvCc"), Arg(p, "ctvMarginCm"), Arg(p, "ptvMarginCm"))
    case ConformityIndex => Formulas.ConformityIndex(Arg(p, "v95"), Arg(p, "ptvVolume"))
    case HomogeneityIndex => Formulas.HomogeneityIndex(Arg(p, "d2"), Arg(p, "d98"), Arg(p, "d50"))
    case PaddickCi => Formulas.PaddickCi(Arg(p, "tvPiv"), Arg(p, "tv"), Arg(p, "piv"))
    case GradientIndex => Formulas.GradientIndex(Arg(p, "v50"), Arg(p, "vPres"))
    case OarVolume => Formulas.OarVolume(Arg(p, "totalVolumeCc"), Arg(p, "overlapCc"))
    case DvhPoint => Formulas.DvhPoint(Arg(p, "doseGy"), Arg(p, "totalDoseGy"))
    case EquivalentSphereDiameter => Formulas.EquivalentSphereDiameter(lib, Arg(p, "volumeCc"))
    case InverseSquare => Formulas.InverseSquare(Arg(p, "intensity1"), Arg(p, "distance1"), Arg(p, "distance2"))
    case MayneordF => Formulas.MayneordF(Arg(p, "ssd1"), Arg(p, "depth"), Arg(p, "ssd2"))
    case OffAxisRatio => Formulas.OffAxisRatio(lib, Arg(p, "distanceFromAxisCm"), Arg(p, "fieldSizeCm"))
    case ScatterAirRatio => Formulas.ScatterAirRatio(lib, Arg(p, "fieldSizeCm"), Arg(p, "depthCm"))
    case BackscatterFactor => Formulas.BackscatterFactor(lib, Arg(p, "fieldSizeCm"), Arg(p, "energyMv"))
    case WedgeTransmission => Formulas.WedgeTransmission(Arg(p, "wedgeAngle"))
    case TrayTransmission => Formulas.TrayTransmission(lib, Arg(p, "trayThicknessCm"), Arg(p, "energyMv"))
    case Tpr => Formulas.Tpr(lib, Arg(p, "depthCm"), Arg(p, "fieldSizeCm"))
    case CollimatorScatter => Formulas.CollimatorScatter(lib, Arg(p, "fieldSizeCm"))
    case PhantomScatter => Formulas.PhantomScatter(lib, Arg(p, "fieldSizeCm"))
    case LqSurvival => Formulas.LqSurvival(lib, Arg(p, "doseGy"), Arg(p, "alpha"), Arg(p, "beta"))
    case CellKill => Formulas.CellKill(lib, Arg(p, "doseGy"), Arg(p, "alpha"), Arg(p, "beta"))
    case EffectiveDose => Formulas.EffectiveDose(Arg(p, "physicalDoseGy"), Arg(p, "rbe"))
    case DoublingTime => Formulas.DoublingTime(lib, Arg(p, "initialVolume"), Arg(p, "finalVolume"), Arg(p, "timeDays"))
    case ClonogenicSurvival => Formulas.ClonogenicSurvival(lib, Arg(p, "doseGy"), Arg(p, "d0"))
    case DoseRecovery => Formulas.DoseRecovery(lib, Arg(p, "timeBetweenFractionsHr"), Arg(p, "halfTimeHr"))
    case GrowthFraction => Formulas.GrowthFraction(Arg(p, "proliferatingCells"), Arg(p, "totalCells"))
    case Oer => Formulas.Oer(Arg(p, "po2Mmhg"), Arg(p, "k"))
    case DoseModifyingFactor => Formulas.DoseModifyingFactor(Arg(p, "doseWithModifier"), Arg(p, "doseWithoutModifier"))
    case IncompleteRepair => Formulas.IncompleteRepair(lib, Arg(p, "timeIntervalHr"), Arg(p, "repairHalfTimeHr"))
    case ImplantActivity => Formulas.ImplantActivity(Arg(p, "prescribedDoseGy"), Arg(p, "treatmentTimeHr"), Arg(p, "distanceCm"))
    case ParisSystem => Formulas.ParisSystem(Arg(p, "lengthCm"), Arg(p, "activityPerCm"))
    case SourceDecay => Formulas.SourceDecay(lib, Arg(p, "initialActivity"), Arg(p, "timeDays"), Arg(p, "halfLifeDays"))
    case ImrtScore => Formulas.ImrtScore(Arg(p, "targetCoverage"), Arg(p, "oarSparing"), Arg(p, "conformity"))
    case Sbrt => Formulas.Sbrt(Arg(p, "prescribedDoseGy"), Arg(p, "numberOfFractions"))
    case DutyCycle => Formulas.DutyCycle(Arg(p, "gateOnTimeSec"), Arg(p, "breathingCycleSec"))
    case VanHerkMargin => Formulas.VanHerkMargin(Arg(p, "systematicErrorCm"), Arg(p, "randomErrorCm"))
    case DoseConstraint => Formulas.DoseConstraint(Arg(p, "deliveredDose"), Arg(p, "constraintDose"))
    case TotalTreatmentTime => Formulas.TotalTreatmentTime(Arg(p, "numberOfFractions"), Arg(p, "fractionsPerWeek"))
    case OttCorrection => Formulas.OttCorrection(Arg(p, "plannedDays"), Arg(p, "actualDays"), Arg(p, "doseLossPerDayGy"))
  }

  /** The formatter of id 48. */
  function Format(f: Formatter, v: Num): (s: string)
    ensures s == "PASS \U{2705}" <==> StrictEq(v, Fin(1.0))
    ensures s != "PASS \U{2705}" ==> s == "FAIL \U{274C}"
  {
    match f
    case PassFail => if StrictEq(v, Fin(1.0)) then "PASS \U{2705}" else "FAIL \U{274C}"
  }

  /** The catalogue as declared: every field is a `[key, label, default]`
      tuple. */
  const Declared: seq<Category<FieldDecl>> := [
    Category("dosis-dasar", "Dosis Dasar", "#2563eb", [
        Calculator(1, "BED", "Gy", [Tuple("totalDose", "Total dose (Gy)", 78.0), Tuple("dosePerFx", "Dose/fraction (Gy)", 2.0), Tuple("alphaBeta", "\U{3B1}/\U{3B2}", 3.0)], Bed, None),
        Calculator(2, "EQD2", "Gy", [Tuple("totalDose", "Total dose (Gy)", 78.0), Tuple("dosePerFx", "Dose/fraction (Gy)", 2.0), Tuple("alphaBeta", "\U{3B1}/\U{3B2}", 3.0)], Eqd2, None),
        Calculator(3, "TCP", "%", [Tuple("doseGy", "Dose (Gy)", 70.0), Tuple("d50", "D50 (Gy)", 50.0), Tuple("gamma", "Gamma", 2.0)], Tcp, None),
        Calculator(4, "NTCP", "%", [Tuple("doseGy", "Dose (Gy)", 70.0), Tuple("td50", "TD50 (Gy)", 60.0), Tuple("m", "m", 0.4)], Ntcp, None),
        Calculator(5, "Therapeutic Ratio", "ratio", [Tuple("tcp", "TCP (0-1)", 0.8), Tuple("ntcp", "NTCP (0-1)", 0.2)], TherapeuticRatio, None),
        Calculator(6, "PDD", "%", [Tuple("depthCm", "Depth (cm)", 10.0), Tuple("ssdCm", "SSD (cm)", 100.0), Tuple("energyMv", "Energy (MV)", 6.0)], Pdd, None),
        Calculator(7, "TAR", "ratio", [Tuple("depthCm", "Depth (cm)", 10.0), Tuple("fieldSizeCm", "Field size (cm)", 10.0), Tuple("energyMv", "Energy (MV)", 6.0)], Tar, None),
        Calculator(8, "TMR", "ratio", [Tuple("depthCm", "Depth (cm)", 10.0), Tuple("fieldSizeCm", "Field size (cm)", 10.0)], Tmr, None),
        Calculator(9, "Monitor Units Calculation", "MU", [Tuple("doseCgy", "Prescribed dose (cGy)", 200.0), Tuple("outputFactor", "Output factor", 1.0), Tuple("tpr", "TPR/TMR", 0.8)], MonitorUnits, None),
        Calculator(10, "Dose Rate Brachy", "cGy/hr", [Tuple("sourceActivityCi", "Source activity (Ci)", 10.0), Tuple("distanceCm", "Distance (cm)", 1.0)], DoseRateBrachy, None)
    ]),
    Category("volume-geometri", "Volume & Geometri", "#0d9488", [
        Calculator(11, "Volume Tumor (Spherical)", "cc", [Tuple("diameterCm", "Diameter (cm)", 4.0)], SphereVolume, None),
        Calculator(12, "Volume Tumor (Ellipsoid)", "cc", [Tuple("aCm", "a (cm)", 3.0), Tuple("bCm", "b (cm)", 2.0), Tuple("cCm", "c (cm)", 2.0)], EllipsoidVolume, None),
        Calculator(13, "PTV", "cc", [Tuple("gtvCc", "GTV (cc)", 34.0), Tuple("ctvMarginCm", "CTV margin (cm)", 0.5), Tuple("ptvMarginCm", "PTV margin (cm)", 0.5)], Ptv, None),
        Calculator(14, "Conformity Index", "ratio", [Tuple("v95", "Volume 95% isodose", 120.0), Tuple("ptvVolume", "PTV volume", 130.0)], ConformityIndex, None),
        Calculator(15, "Homogeneity Index", "ratio", [Tuple("d2", "D2%", 82.0), Tuple("d98", "D98%", 76.0), Tuple("d50", "D50%", 78.0)], HomogeneityIndex, None),
        Calculator(16, "Paddick CI", "ratio", [Tuple("tvPiv", "TV_PIV", 110.0), Tuple("tv", "TV", 130.0), Tuple("piv", "PIV", 140.0)], PaddickCi, None),
        Calculator(17, "Gradient Index", "ratio", [Tuple("v50", "Volume 50%", 250.0), Tuple("vPres", "Volume prescription", 120.0)], GradientIndex, None),
        Calculator(18, "OAR Volume", "cc", [Tuple("totalVolumeCc", "Total volume", 180.0), Tuple("overlapCc", "Overlap with PTV", 15.0)], OarVolume, None),
        Calculator(19, "DVH Point", "%", [Tuple("doseGy", "Dose point (Gy)", 30.0), Tuple("totalDoseGy", "Total dose (Gy)", 70.0)], DvhPoint, None),
        Calculator(20, "Equivalent Sphere Diameter", "cm", [Tuple("volumeCc", "Volume (cc)", 34.0)], EquivalentSphereDiameter, None)
    ]),
    Category("koreksi-faktor", "Koreksi & Faktor", "#7c3aed", [
        Calculator(21, "Inverse Square Law", "intensity", [Tuple("intensity1", "Intensity 1", 100.0), Tuple("distance1", "Distance 1 (cm)", 100.0), Tuple("distance2", "Distance 2 (cm)", 80.0)], InverseSquare, None),
        Calculator(22, "Mayneord F", "ratio", [Tuple("ssd1", "SSD1 (cm)", 100.0), Tuple("depth", "Depth (cm)", 10.0), Tuple("ssd2", "SSD2 (cm)", 90.0)], MayneordF, None),
        Calculator(23, "Off-Axis Ratio", "ratio", [Tuple("distanceFromAxisCm", "Distance from axis (cm)", 2.0), Tuple("fieldSizeCm", "Field size (cm)", 10.0)], OffAxisRatio, None),
        Calculator(24, "Scatter-Air Ratio", "ratio", [Tuple("fieldSizeCm", "Field size (cm)", 10.0), Tuple("depthCm", "Depth (cm)", 10.0)], ScatterAirRatio, None),
        Calculator(25, "Backscatter Factor", "ratio", [Tuple("fieldSizeCm", "Field size (cm)", 10.0), Tuple("energyMv", "Energy (MV)", 6.0)], BackscatterFactor, None),
        Calculator(26, "Wedge Transmission Factor", "ratio", [Tuple("wedgeAngle", "Wedge angle (\U{B0})", 45.0)], WedgeTransmission, None),
        Calculator(27, "Tray Transmission Factor", "ratio", [Tuple("trayThicknessCm", "Tray thickness (cm)", 1.0), Tuple("energyMv", "Energy (MV)", 6.0)], TrayTransmission, None),
        Calculator(28, "Tissue Phantom Ratio (TPR)", "ratio", [Tuple("depthCm", "Depth (cm)", 10.0), Tuple("fieldSizeCm", "Field size (cm)", 10.0)], Tpr, None),
        Calculator(29, "Collimator Scatter", "ratio", [Tuple("fieldSizeCm", "Field size (cm)", 10.0)], CollimatorScatter, None),
        Calculator(30, "Phantom Scatter", "ratio", [Tuple("fieldSizeCm", "Field size (cm)", 10.0)], PhantomScatter, None)
    ]),
    Category("radiobiologi", "Radiobiologi", "#db2777", [
        Calculator(31, "LQ Cell Survival", "fraction", [Tuple("doseGy", "Dose (Gy)", 2.0), Tuple("alpha", "\U{3B1}", 0.35), Tuple("beta", "\U{3B2}", 0.05)], LqSurvival, None),
        Calculator(32, "Cell Kill Fraction", "fraction", [Tuple("doseGy", "Dose (Gy)", 2.0), Tuple("alpha", "\U{3B1}", 0.35), Tuple("beta", "\U{3B2}", 0.05)], CellKill, None),
        Calculator(33, "Effective Dose", "Gy(RBE)", [Tuple("physicalDoseGy", "Physical dose (Gy)", 60.0), Tuple("rbe", "RBE", 1.1)], EffectiveDose, None),
        Calculator(34, "Tumor Doubling Time", "days", [Tuple("initialVolume", "Initial volume", 25.0), Tuple("finalVolume", "Final volume", 50.0), Tuple("timeDays", "Elapsed days", 30.0)], DoublingTime, None),
        Calculator(35, "Clonogenic Survival", "fraction", [Tuple("doseGy", "Dose (Gy)", 2.0), Tuple("d0", "D0", 3.0)], ClonogenicSurvival, None),
        Calculator(36, "Dose Recovery Factor", "fraction", [Tuple("timeBetweenFractionsHr", "Time between fractions (hr)", 6.0), Tuple("halfTimeHr", "Repair half time (hr)", 1.5)], DoseRecovery, None),
        Calculator(37, "Growth Fraction", "fraction", [Tuple("proliferatingCells", "Proliferating cells", 700.0), Tuple("totalCells", "Total cells", 1000.0)], GrowthFraction, None),
        Calculator(38, "Oxygen Enhancement Ratio", "ratio", [Tuple("po2Mmhg", "pO2 (mmHg)", 20.0), Tuple("k", "k", 3.0)], Oer, None),
        Calculator(39, "Dose Modifying Factor", "ratio", [Tuple("doseWithModifier", "Dose with modifier", 55.0), Tuple("doseWithoutModifier", "Dose without modifier", 60.0)], DoseModifyingFactor, None),
        Calculator(40, "Incomplete Repair Factor", "fraction", [Tuple("timeIntervalHr", "Interval (hr)", 1.0), Tuple("repairHalfTimeHr", "Repair half-time (hr)", 0.5)], IncompleteRepair, None)
    ]),
    Category("advanced", "Brachytherapy & Advanced", "#ea580c", [
        Calculator(41, "Brachytherapy Implant Activity", "Ci", [Tuple("prescribedDoseGy", "Prescribed dose (Gy)", 10.0), Tuple("treatmentTimeHr", "Treatment time (hr)", 24.0), Tuple("distanceCm", "Distance (cm)", 1.0)], ImplantActivity, None),
        Calculator(42, "Paris System Dosimetry", "cGy/hr", [Tuple("lengthCm", "Length (cm)", 10.0), Tuple("activityPerCm", "Activity per cm", 0.8)], ParisSystem, None),
        Calculator(43, "Source Decay Correction", "Ci", [Tuple("initialActivity", "Initial activity (Ci)", 10.0), Tuple("timeDays", "Time (days)", 30.0), Tuple("halfLifeDays", "Half-life (days)", 73.8)], SourceDecay, None),
        Calculator(44, "IMRT Optimization Score", "score", [Tuple("targetCoverage", "Target coverage", 0.96), Tuple("oarSparing", "OAR sparing", 0.88), Tuple("conformity", "Conformity", 0.91)], ImrtScore, None),
        Calculator(45, "SBRT/SRS Dose Calculation", "Gy", [Tuple("prescribedDoseGy", "Prescribed dose (Gy)", 48.0), Tuple("numberOfFractions", "Fractions", 4.0)], Sbrt, None),
        Calculator(46, "Respiratory Gating Duty Cycle", "fraction", [Tuple("gateOnTimeSec", "Gate-on time (sec)", 2.0), Tuple("breathingCycleSec", "Breathing cycle (sec)", 5.0)], DutyCycle, None),
        Calculator(47, "Setup Margin (van Herk)", "cm", [Tuple("systematicErrorCm", "Systematic error (cm)", 0.3), Tuple("randomErrorCm", "Random error (cm)", 0.4)], VanHerkMargin, None),
        Calculator(48, "Dose Constraint Evaluation", "status", [Tuple("deliveredDose", "Delivered dose", 28.0), Tuple("constraintDose", "Constraint dose", 30.0)], DoseConstraint, Some(PassFail)),
        Calculator(49, "Total Treatment Time", "days", [Tuple("numberOfFractions", "Number of fractions", 39.0), Tuple("fractionsPerWeek", "Fractions/week", 5.0)], TotalTreatmentTime, None),
        Calculator(50, "Overall Treatment Time Correction", "Gy", [Tuple("plannedDays", "Planned days", 55.0), Tuple("actualDays", "Actual days", 60.0), Tuple("doseLossPerDayGy", "Dose loss/day (Gy)", 0.6)], OttCorrection, None)
    ])
  ]

  // ---- categoriesWithValidation ----

  /** A calculator with every field declaration normalised. */
  function NormalizeCalculator(c: Calculator<FieldDecl>): (r: Calculator<FieldSpec>)
    ensures r.id == c.id && r.name == c.name && r.unit == c.unit
    ensures r.formula == c.formula && r.formatter == c.formatter
    ensures |r.fields| == |c.fields|
    ensures forall k | 0 <= k < |c.fields| :: r.fields[k] == NormalizeField(c.fields[k])
  {
    Calculator(c.id, c.name, c.unit,
               seq(|c.fields|, k requires 0 <= k < |c.fields| => NormalizeField(c.fields[k])),
               c.formula, c.formatter)
  }

  /** Normalisation keeps every category and calculator, in order, and
      replaces only the field entries. */
  function NormalizeCatalogue(cats: seq<Category<FieldDecl>>): (r: seq<Category<FieldSpec>>)
    ensures |r| == |cats|
    ensures forall i | 0 <= i < |cats| ::
      r[i].id == cats[i].id && r[i].title == cats[i].title && r[i].color == cats[i].color
      && |r[i].calculators| == |cats[i].calculators|
    ensures forall i, j | 0 <= i < |cats| && 0 <= j < |cats[i].calculators| ::
      r[i].calculators[j] == NormalizeCalculator(cats[i].calculators[j])
  {
    seq(|cats|, i requires 0 <= i < |cats| =>
      Category(cats[i].id, cats[i].title, cats[i].color,
               seq(|cats[i].calculators|, j requires 0 <= j < |cats[i].calculators| =>
                 NormalizeCalculator(cats[i].calculators[j]))))
  }

  /** `calculatorCategories`. */
  function CalculatorCategories(): seq<Category<FieldSpec>> {
    NormalizeCatalogue(Declared)
  }

  // ---- allCalculators ----

  /** Number of calculators over a list of categories. */
  function Count<F>(cats: seq<Category<F>>): nat {
    if cats == [] then 0 else |cats[0].calculators| + Count(cats[1..])
  }

  /** One category's calculators, each tagged with the category. */
  function Tag(cat: Category<FieldSpec>): (r: seq<Entry>)
    ensures |r| == |cat.calculators|
    ensures forall j | 0 <= j < |r| :: r[j] == Entry(cat.calculators[j], cat.id, cat.title, cat.color)
  {
    seq(|cat.calculators|, j requires 0 <= j < |cat.calculators| =>
      Entry(cat.calculators[j], cat.id, cat.title, cat.color))
  }

  /** The in-order concatenation of every category's tagged calculators. */
  function AllCalculators(cats: seq<Category<FieldSpec>>): (r: seq<Entry>)
    ensures |r| == Count(cats)
  {
    if cats == [] then [] else Tag(cats[0]) + AllCalculators(cats[1..])
  }

  /** Calculator j of category i sits in `allCalculators` right after the
      calculators of the categories before i, tagged with category i. */
  lemma {:induction false} AllCalculatorsPosition(cats: seq<Category<FieldSpec>>, i: nat, j: nat)
    requires i < |cats| && j < |cats[i].calculators|
    ensures Count(cats[..i]) + j < |AllCalculators(cats)|
    ensures AllCalculators(cats)[Count(cats[..i]) + j]
            == Entry(cats[i].calculators[j], cats[i].id, cats[i].title, cats[i].color)
  {
    if i == 0 {
      assert cats[..0] == [];
    } else {
      CountPrefix(cats, i);
      var tail := cats[1..];
      assert tail[i - 1] == cats[i];
      AllCalculatorsPosition(tail, i - 1, j);
    }
  }

  /** Counting a prefix of length i > 0 counts the head, then a prefix of
      the tail. */
  lemma CountPrefix<F>(cats: seq<Category<F>>, i: nat)
    requires 0 < i <= |cats|
    ensures Count(cats[..i]) == |cats[0].calculators| + Count(cats[1..][..i - 1])
  {
    assert cats[..i][1..] == cats[1..][..i - 1];
  }

  /** `allCalculators` of the normalised catalogue. */
  function AllEntries(): seq<Entry> {
    AllCalculators(CalculatorCategories())
  }

  /** Every entry of `allCalculators` is a calculator of one of the
      categories, tagged with that category. */
  lemma {:induction false} EntryOrigin(cats: seq<Category<FieldSpec>>, e: Entry)
    requires e in AllCalculators(cats)
    ensures exists i | 0 <= i < |cats| ::
      e.calculator in cats[i].calculators && e.categoryId == cats[i].id
      && e.categoryTitle == cats[i].title && e.color == cats[i].color
  {
    if e in Tag(cats[0]) {
      assert e.calculator in cats[0].calculators;
    } else {
      EntryOrigin(cats[1..], e);
      var i :| 0 <= i < |cats[1..]| && e.calculator in cats[1..][i].calculators && e.categoryId == cats[1..][i].id
               && e.categoryTitle == cats[1..][i].title && e.color == cats[1..][i].color;
      assert cats[1..][i] == cats[i + 1];
    }
  }

  /** Two catalogues of the same shape hold the same number of calculators. */
  lemma {:induction false} CountSameShape<F, G>(a: seq<Category<F>>, b: seq<Category<G>>)
    requires |a| == |b|
    requires forall i | 0 <= i < |a| :: |a[i].calculators| == |b[i].calculators|
    ensures Count(a) == Count(b)
  {
    if a != [] {
      assert |a[0].calculators| == |b[0].calculators|;
      forall i | 0 <= i < |a[1..]|
        ensures |a[1..][i].calculators| == |b[1..][i].calculators|
      {
        assert a[1..][i] == a[i + 1] && b[1..][i] == b[i + 1];
      }
      CountSameShape(a[1..], b[1..]);
    }
  }

  /** The catalogue holds 50 calculators in 5 categories, and so does
      `allCalculators` after normalisation (the sidebar's totals). */
  lemma CatalogueSize()
    ensures |Declared| == 5 && Count(Declared) == 50
    ensures |CalculatorCategories()| == 5 && |AllEntries()| == 50
  {
    assert Declared[1..][1..][1..][1..][1..] == [];
    assert Count(Declared[1..][1..][1..][1..]) == 10;
    CountSameShape(Declared, CalculatorCategories());
  }

  /** TMR (id 8) and TPR (id 28) compute the same value on every payload. */
  lemma TmrAndTprAgree(lib: MathLib, p: Payload)
    ensures Declared[0].calculators[7].id == 8 && Declared[2].calculators[7].id == 28
    ensures Compute(Declared[0].calculators[7].formula, lib, p)
            == Compute(Declared[2].calculators[7].formula, lib, p)
  {
    Formulas.TmrTpr(lib, Arg(p, "depthCm"), Arg(p, "fieldSizeCm"));
  }

  /** The card of id 48 evaluates the dose constraint, reports with the
      pass/fail formatter and carries the unit 'status'. */
  lemma DoseConstraintCalculator()
    ensures var c := Declared[4].calculators[7];
      c.id == 48 && c.unit == "status" && c.formula == DoseConstraint && c.formatter == Some(PassFail)
      && |c.fields| == 2 && c.fields[0].key == "deliveredDose" && c.fields[1].key == "constraintDose"
  {
  }
}
