/** The `compute` functions of the calculator catalogue
    (src/calculators.js:1-114), one function per calculator, written with
    the operators of JsNumber so that division by zero, NaN and the
    infinities behave as they do in the browser. Each function follows the
    source expression's own parse tree. Calls into the floating-point
    library go through the `MathLib` parameter. */
module Formulas {
  import opened JsNumber
  import opened RealArith

  /** `safeDivide`: a zero denominator gives +Infinity, whatever the
      numerator (even 0 or NaN); otherwise plain division. */
  function SafeDivide(num: Num, den: Num): (r: Num)
    ensures StrictEq(den, Fin(0.0)) ==> r == PosInf
    ensures num.Fin? && den.Fin? && den.r != 0.0 ==> r == Fin(num.r / den.r)
    ensures den.NaN? || (num.NaN? && !StrictEq(den, Fin(0.0))) ==> r.NaN?
  {
    if StrictEq(den, Fin(0.0)) then PosInf else Div(num, den)
  }

  // ---- Dosis Dasar (ids 1-10) ----

  /** id 1, BED. */
  function Bed(totalDose: Num, dosePerFx: Num, alphaBeta: Num): Num {
    Mul(totalDose, Add(Fin(1.0), Div(dosePerFx, alphaBeta)))
  }

  /** id 2, EQD2: BED divided by the BED factor of 2 Gy fractions. */
  function Eqd2(totalDose: Num, dosePerFx: Num, alphaBeta: Num): Num {
    var bed := Mul(totalDose, Add(Fin(1.0), Div(dosePerFx, alphaBeta)));
    Div(bed, Add(Fin(1.0), Div(Fin(2.0), alphaBeta)))
  }

  /** id 3, TCP in percent. */
  function Tcp(lib: MathLib, doseGy: Num, d50: Num, gamma: Num): Num {
    Mul(Fin(100.0), Div(Fin(1.0), Add(Fin(1.0), lib.pow(Div(d50, doseGy), Mul(Fin(4.0), gamma)))))
  }

  /** id 4, NTCP (Lyman) in percent. */
  function Ntcp(lib: MathLib, doseGy: Num, td50: Num, m: Num): Num {
    var t := Div(Sub(doseGy, td50), Mul(m, td50));
    Mul(Fin(50.0), Add(Fin(1.0), lib.erf(Div(t, lib.sqrt(Fin(2.0))))))
  }

  /** id 5, therapeutic ratio. */
  function TherapeuticRatio(tcp: Num, ntcp: Num): Num {
    SafeDivide(tcp, ntcp)
  }

  /** The depth of maximum dose: 1.5 cm for exactly 6 MV, else 3 cm. */
  function Dmax(energyMv: Num): real {
    if StrictEq(energyMv, Fin(6.0)) then 1.5 else 3.0
  }

  /** id 6, PDD: 100 up to the depth of maximum dose, then attenuation
      times the inverse-square factor. */
  function Pdd(lib: MathLib, depthCm: Num, ssdCm: Num, energyMv: Num): Num {
    var dmax := Fin(Dmax(energyMv));
    if Le(depthCm, dmax) then Fin(100.0)
    else
      var tpr := lib.pow(Fin(0.975), Sub(depthCm, dmax));
      var isf := Sq(Div(Add(ssdCm, dmax), Add(ssdCm, depthCm)));
      Mul(Mul(Fin(100.0), tpr), isf)
  }

  /** id 7, TAR. */
  function Tar(lib: MathLib, depthCm: Num, fieldSizeCm: Num, energyMv: Num): Num {
    var mu := if StrictEq(energyMv, Fin(6.0)) then 0.04 else 0.03;
    Mul(lib.exp(Mul(Fin(-mu), depthCm)), Add(Fin(1.0), Mul(Fin(0.01), fieldSizeCm)))
  }

  /** id 8, TMR: 1 down to 1.5 cm. */
  function Tmr(lib: MathLib, depthCm: Num, fieldSizeCm: Num): Num {
    if Le(depthCm, Fin(1.5)) then Fin(1.0)
    else Mul(lib.exp(Mul(Fin(-0.04), Sub(depthCm, Fin(1.5)))), Add(Fin(1.0), Mul(Fin(0.01), fieldSizeCm)))
  }

  /** id 9, monitor units. */
  function MonitorUnits(doseCgy: Num, outputFactor: Num, tpr: Num): Num {
    SafeDivide(doseCgy, Mul(outputFactor, tpr))
  }

  /** id 10, brachytherapy dose rate. */
  function DoseRateBrachy(sourceActivityCi: Num, distanceCm: Num): Num {
    Mul(Div(Mul(Mul(sourceActivityCi, Fin(1000.0)), Fin(0.35)), Sq(distanceCm)), Fin(0.95))
  }

  // ---- Volume & Geometri (ids 11-20) ----

  /** id 11. */
  function SphereVolume(lib: MathLib, diameterCm: Num): Num {
    Mul(Mul(Fin(4.0 / 3.0), lib.pi), Cube(Div(diameterCm, Fin(2.0))))
  }

  /** id 12. */
  function EllipsoidVolume(lib: MathLib, aCm: Num, bCm: Num, cCm: Num): Num {
    Mul(Mul(Mul(Mul(Fin(4.0 / 3.0), lib.pi), aCm), bCm), cCm)
  }

  /** id 13, PTV by spherical expansion of the GTV. */
  function Ptv(lib: MathLib, gtvCc: Num, ctvMarginCm: Num, ptvMarginCm: Num): Num {
    var gtvRadius := lib.pow(Div(Mul(Fin(3.0), gtvCc), Mul(Fin(4.0), lib.pi)), Fin(1.0 / 3.0));
    var ptvRadius := Add(Add(gtvRadius, ctvMarginCm), ptvMarginCm);
    Mul(Mul(Fin(4.0 / 3.0), lib.pi), Cube(ptvRadius))
  }

  /** id 14. */
  function ConformityIndex(v95: Num, ptvVolume: Num): Num {
    SafeDivide(v95, ptvVolume)
  }

  /** id 15. */
  function HomogeneityIndex(d2: Num, d98: Num, d50: Num): Num {
    SafeDivide(Sub(d2, d98), d50)
  }

  /** id 16. */
  function PaddickCi(tvPiv: Num, tv: Num, piv: Num): Num {
    SafeDivide(Sq(tvPiv), Mul(tv, piv))
  }

  /** id 17. */
  function GradientIndex(v50: Num, vPres: Num): Num {
    SafeDivide(v50, vPres)
  }

  /** id 18. */
  function OarVolume(totalVolumeCc: Num, overlapCc: Num): Num {
    Sub(totalVolumeCc, overlapCc)
  }

  /** id 19, DVH point: 0 unless the point dose is below the total. */
  function DvhPoint(doseGy: Num, totalDoseGy: Num): Num {
    if Lt(doseGy, totalDoseGy) then Mul(Fin(100.0), Sub(Fin(1.0), Div(doseGy, totalDoseGy)))
    else Fin(0.0)
  }

  /** id 20. */
  function EquivalentSphereDiameter(lib: MathLib, volumeCc: Num): Num {
    Mul(Fin(2.0), lib.pow(Div(Mul(Fin(3.0), volumeCc), Mul(Fin(4.0), lib.pi)), Fin(1.0 / 3.0)))
  }

  // ---- Koreksi & Faktor (ids 21-30) ----

  /** id 21. */
  function InverseSquare(intensity1: Num, distance1: Num, distance2: Num): Num {
    Mul(intensity1, Sq(Div(distance1, distance2)))
  }

  /** id 22. */
  function MayneordF(ssd1: Num, depth: Num, ssd2: Num): Num {
    Mul(Sq(Div(Add(ssd1, depth), Add(ssd2, depth))), Sq(Div(ssd2, ssd1)))
  }

  /** id 23. */
  function OffAxisRatio(lib: MathLib, distanceFromAxisCm: Num, fieldSizeCm: Num): Num {
    var sigma := Div(fieldSizeCm, Fin(4.0));
    lib.exp(Div(Neg(Sq(distanceFromAxisCm)), Mul(Fin(2.0), Sq(sigma))))
  }

  /** id 24. */
  function ScatterAirRatio(lib: MathLib, fieldSizeCm: Num, depthCm: Num): Num {
    Mul(Mul(Fin(0.01), fieldSizeCm), lib.exp(Mul(Fin(-0.02), depthCm)))
  }

  /** id 25. */
  function BackscatterFactor(lib: MathLib, fieldSizeCm: Num, energyMv: Num): Num {
    var bsfMax := if StrictEq(energyMv, Fin(6.0)) then 1.04 else 1.02;
    Add(Fin(1.0), Mul(Sub(Fin(bsfMax), Fin(1.0)), Sub(Fin(1.0), lib.exp(Mul(Fin(-0.1), fieldSizeCm)))))
  }

  /** id 26. */
  function WedgeTransmission(wedgeAngle: Num): Num {
    Sub(Fin(1.0), Mul(Div(wedgeAngle, Fin(90.0)), Fin(0.5)))
  }

  /** id 27. */
  function TrayTransmission(lib: MathLib, trayThicknessCm: Num, energyMv: Num): Num {
    var mu := if StrictEq(energyMv, Fin(6.0)) then 0.05 else 0.03;
    lib.exp(Mul(Fin(-mu), trayThicknessCm))
  }

  /** id 28, TPR: the same expression as TMR (id 8). */
  function Tpr(lib: MathLib, depthCm: Num, fieldSizeCm: Num): Num {
    if Le(depthCm, Fin(1.5)) then Fin(1.0)
    else Mul(lib.exp(Mul(Fin(-0.04), Sub(depthCm, Fin(1.5)))), Add(Fin(1.0), Mul(Fin(0.01), fieldSizeCm)))
  }

  /** id 29. */
  function CollimatorScatter(lib: MathLib, fieldSizeCm: Num): Num {
    Add(Fin(0.95), Mul(Fin(0.05), Sub(Fin(1.0), lib.exp(Mul(Fin(-0.05), fieldSizeCm)))))
  }

  /** id 30. */
  function PhantomScatter(lib: MathLib, fieldSizeCm: Num): Num {
    Add(Fin(1.0), Mul(Mul(Fin(0.01), fieldSizeCm), Sub(Fin(1.0), lib.exp(Mul(Fin(-0.05), fieldSizeCm)))))
  }

  // ---- Radiobiologi (ids 31-40) ----

  /** id 31, linear-quadratic survival. */
  function LqSurvival(lib: MathLib, doseGy: Num, alpha: Num, beta: Num): Num {
    lib.exp(Sub(Mul(Neg(alpha), doseGy), Mul(beta, Sq(doseGy))))
  }

  /** id 32, cell kill fraction. */
  function CellKill(lib: MathLib, doseGy: Num, alpha: Num, beta: Num): Num {
    Sub(Fin(1.0), lib.exp(Sub(Mul(Neg(alpha), doseGy), Mul(beta, Sq(doseGy)))))
  }

  /** id 33. */
  function EffectiveDose(physicalDoseGy: Num, rbe: Num): Num {
    Mul(physicalDoseGy, rbe)
  }

  /** id 34, tumour doubling time: +Infinity unless the tumour grew. */
  function DoublingTime(lib: MathLib, initialVolume: Num, finalVolume: Num, timeDays: Num): Num {
    if Le(finalVolume, initialVolume) then PosInf
    else Div(Mul(timeDays, lib.log(Fin(2.0))), lib.log(Div(finalVolume, initialVolume)))
  }

  /** id 35. */
  function ClonogenicSurvival(lib: MathLib, doseGy: Num, d0: Num): Num {
    lib.exp(Div(Neg(doseGy), d0))
  }

  /** id 36. */
  function DoseRecovery(lib: MathLib, timeBetweenFractionsHr: Num, halfTimeHr: Num): Num {
    Sub(Fin(1.0), lib.exp(Div(Mul(Neg(lib.log(Fin(2.0))), timeBetweenFractionsHr), halfTimeHr)))
  }

  /** id 37. */
  function GrowthFraction(proliferatingCells: Num, totalCells: Num): Num {
    SafeDivide(proliferatingCells, totalCells)
  }

  /** id 38, oxygen enhancement ratio. */
  function Oer(po2Mmhg: Num, k: Num): Num {
    Div(Add(Mul(k, po2Mmhg), k), Add(po2Mmhg, k))
  }

  /** id 39. */
  function DoseModifyingFactor(doseWithModifier: Num, doseWithoutModifier: Num): Num {
    SafeDivide(doseWithoutModifier, doseWithModifier)
  }

  /** id 40. */
  function IncompleteRepair(lib: MathLib, timeIntervalHr: Num, repairHalfTimeHr: Num): Num {
    lib.exp(Div(Mul(Neg(lib.log(Fin(2.0))), timeIntervalHr), repairHalfTimeHr))
  }

  // ---- Brachytherapy & Advanced (ids 41-50) ----

  /** id 41. */
  function ImplantActivity(prescribedDoseGy: Num, treatmentTimeHr: Num, distanceCm: Num): Num {
    Div(Mul(Mul(prescribedDoseGy, Fin(100.0)), Sq(distanceCm)),
        Mul(Mul(Mul(treatmentTimeHr, Fin(0.35)), Fin(1000.0)), Fin(0.95)))
  }

  /** id 42. */
  function ParisSystem(lengthCm: Num, activityPerCm: Num): Num {
    Mul(Mul(Fin(0.85), activityPerCm), lengthCm)
  }

  /** id 43. */
  function SourceDecay(lib: MathLib, initialActivity: Num, timeDays: Num, halfLifeDays: Num): Num {
    Mul(initialActivity, lib.exp(Div(Mul(Neg(lib.log(Fin(2.0))), timeDays), halfLifeDays)))
  }

  /** id 44, weighted IMRT score. */
  function ImrtScore(targetCoverage: Num, oarSparing: Num, conformity: Num): Num {
    Add(Add(Mul(Fin(0.5), targetCoverage), Mul(Fin(0.3), oarSparing)), Mul(Fin(0.2), conformity))
  }

  /** id 45, SBRT/SRS BED with alpha/beta fixed at 10. */
  function Sbrt(prescribedDoseGy: Num, numberOfFractions: Num): Num {
    var dosePerFx := Div(prescribedDoseGy, numberOfFractions);
    Mul(prescribedDoseGy, Add(Fin(1.0), Div(dosePerFx, Fin(10.0))))
  }

  /** id 46. */
  function DutyCycle(gateOnTimeSec: Num, breathingCycleSec: Num): Num {
    SafeDivide(gateOnTimeSec, breathingCycleSec)
  }

  /** id 47, van Herk margin 2.5 Sigma + 0.7 sigma. */
  function VanHerkMargin(systematicErrorCm: Num, randomErrorCm: Num): Num {
    Add(Mul(Fin(2.5), systematicErrorCm), Mul(Fin(0.7), randomErrorCm))
  }

  /** id 48, dose constraint: 1 for pass, 0 for fail. */
  function DoseConstraint(deliveredDose: Num, constraintDose: Num): Num {
    if Le(deliveredDose, constraintDose) then Fin(1.0) else Fin(0.0)
  }

  /** id 49, whole weeks of treatment, in days. */
  function TotalTreatmentTime(numberOfFractions: Num, fractionsPerWeek: Num): Num {
    Mul(Ceil(Div(numberOfFractions, fractionsPerWeek)), Fin(7.0))
  }

  /** id 50, overall-treatment-time correction. */
  function OttCorrection(plannedDays: Num, actualDays: Num, doseLossPerDayGy: Num): Num {
    if Le(actualDays, plannedDays) then Fin(0.0)
    else Mul(Sub(actualDays, plannedDays), doseLossPerDayGy)
  }

  // ---- Properties ----

  /** For finite inputs with a usable alpha/beta, EQD2 is the real BED
      divided by the BED factor of 2 Gy fractions, 1 + 2/alphaBeta. */
  lemma Eqd2IsScaledBed(totalDose: real, dosePerFx: real, alphaBeta: real)
    requires alphaBeta != 0.0 && alphaBeta != -2.0
    ensures Bed(Fin(totalDose), Fin(dosePerFx), Fin(alphaBeta)).Fin?
    ensures Eqd2(Fin(totalDose), Fin(dosePerFx), Fin(alphaBeta))
            == Fin(Bed(Fin(totalDose), Fin(dosePerFx), Fin(alphaBeta)).r / (1.0 + 2.0 / alphaBeta))
  {
    var f := 1.0 + 2.0 / alphaBeta;
    ReferenceFactorNonZero(alphaBeta);
    assert Add(Fin(1.0), Div(Fin(2.0), Fin(alphaBeta))) == Fin(f);
    var bed := totalDose * (1.0 + dosePerFx / alphaBeta);
    assert Add(Fin(1.0), Div(Fin(dosePerFx), Fin(alphaBeta))) == Fin(1.0 + dosePerFx / alphaBeta);
    assert Bed(Fin(totalDose), Fin(dosePerFx), Fin(alphaBeta)) == Fin(bed);
  }

  /** At the reference schedule of 2 Gy per fraction EQD2 gives back the
      total dose. */
  lemma Eqd2AtReferenceDose(totalDose: real, alphaBeta: real)
    requires alphaBeta != 0.0 && alphaBeta != -2.0
    ensures Eqd2(Fin(totalDose), Fin(2.0), Fin(alphaBeta)) == Fin(totalDose)
  {
    Eqd2IsScaledBed(totalDose, 2.0, alphaBeta);
    var f := 1.0 + 2.0 / alphaBeta;
    ReferenceFactorNonZero(alphaBeta);
    assert Bed(Fin(totalDose), Fin(2.0), Fin(alphaBeta)).r == totalDose * f;
    DivCancel(totalDose, f);
  }

  /** SBRT (id 45) is BED with the dose per fraction D/n and alpha/beta 10,
      on every input. */
  lemma SbrtIsBed(prescribedDoseGy: Num, numberOfFractions: Num)
    ensures Sbrt(prescribedDoseGy, numberOfFractions)
            == Bed(prescribedDoseGy, Div(prescribedDoseGy, numberOfFractions), Fin(10.0))
  {
  }

  /** TMR (id 8) and TPR (id 28) agree everywhere and are 1 down to 1.5 cm. */
  lemma TmrTpr(lib: MathLib, depthCm: Num, fieldSizeCm: Num)
    ensures Tpr(lib, depthCm, fieldSizeCm) == Tmr(lib, depthCm, fieldSizeCm)
    ensures Le(depthCm, Fin(1.5)) ==> Tmr(lib, depthCm, fieldSizeCm) == Fin(1.0)
    ensures depthCm.Fin? && depthCm.r > 1.5 ==>
      Tmr(lib, depthCm, fieldSizeCm)
        == Mul(lib.exp(Fin(-0.04 * (depthCm.r - 1.5))), Add(Fin(1.0), Mul(Fin(0.01), fieldSizeCm)))
  {
  }

  /** PDD is 100 in the build-up region: down to 1.5 cm at any energy, and
      down to 3 cm at every energy other than exactly 6 MV. Past the depth
      of maximum dose it is 100 times the attenuation 0.975^(d - dmax)
      times the inverse-square factor ((ssd + dmax)/(ssd + d))^2. */
  lemma PddBuildUp(lib: MathLib, depthCm: Num, ssdCm: Num, energyMv: Num)
    ensures Le(depthCm, Fin(1.5)) ==> Pdd(lib, depthCm, ssdCm, energyMv) == Fin(100.0)
    ensures !StrictEq(energyMv, Fin(6.0)) && Le(depthCm, Fin(3.0)) ==> Pdd(lib, depthCm, ssdCm, energyMv) == Fin(100.0)
    ensures StrictEq(energyMv, Fin(6.0)) && depthCm.Fin? && depthCm.r > 1.5 ==>
      Pdd(lib, depthCm, ssdCm, energyMv)
        == Mul(Mul(Fin(100.0), lib.pow(Fin(0.975), Fin(depthCm.r - 1.5))),
               Sq(Div(Add(ssdCm, Fin(1.5)), Add(ssdCm, depthCm))))
    ensures !StrictEq(energyMv, Fin(6.0)) && depthCm.Fin? && depthCm.r > 3.0 ==>
      Pdd(lib, depthCm, ssdCm, energyMv)
        == Mul(Mul(Fin(100.0), lib.pow(Fin(0.975), Fin(depthCm.r - 3.0))),
               Sq(Div(Add(ssdCm, Fin(3.0)), Add(ssdCm, depthCm))))
  {
  }

  /** The DVH point is 0 whenever the point dose is not below the total
      (NaN included); for 0 <= dose < total it is a percentage in (0, 100]. */
  lemma DvhPointRange(doseGy: Num, totalDoseGy: Num)
    ensures !Lt(doseGy, totalDoseGy) ==> DvhPoint(doseGy, totalDoseGy) == Fin(0.0)
    ensures doseGy.Fin? && totalDoseGy.Fin? && 0.0 <= doseGy.r < totalDoseGy.r ==>
      var p := DvhPoint(doseGy, totalDoseGy);
      p.Fin? && 0.0 < p.r <= 100.0 && p.r == 100.0 * (1.0 - doseGy.r / totalDoseGy.r)
  {
    if doseGy.Fin? && totalDoseGy.Fin? && 0.0 <= doseGy.r < totalDoseGy.r {
      var q := doseGy.r / totalDoseGy.r;
      QuotientSign(doseGy.r, totalDoseGy.r, q);
      assert 0.0 <= q < 1.0;
      assert DvhPoint(doseGy, totalDoseGy) == Fin(100.0 * (1.0 - q));
    }
  }

  /** The OTT correction is 0 unless the treatment ran over; then it is the
      overrun times the daily loss, never negative for a non-negative loss. */
  lemma OttCorrectionOverrun(plannedDays: Num, actualDays: Num, doseLossPerDayGy: Num)
    ensures Le(actualDays, plannedDays) ==> OttCorrection(plannedDays, actualDays, doseLossPerDayGy) == Fin(0.0)
    ensures plannedDays.Fin? && actualDays.Fin? && doseLossPerDayGy.Fin? && actualDays.r > plannedDays.r ==>
      OttCorrection(plannedDays, actualDays, doseLossPerDayGy)
        == Fin((actualDays.r - plannedDays.r) * doseLossPerDayGy.r)
    ensures plannedDays.Fin? && actualDays.Fin? && doseLossPerDayGy.Fin? && doseLossPerDayGy.r >= 0.0 ==>
      OttCorrection(plannedDays, actualDays, doseLossPerDayGy).Fin? &&
      OttCorrection(plannedDays, actualDays, doseLossPerDayGy).r >= 0.0
  {
  }

  /** The dose constraint yields exactly 1 when the delivered dose is within
      the constraint, and exactly 0 otherwise (NaN included). */
  lemma DoseConstraintPassFail(deliveredDose: Num, constraintDose: Num)
    ensures StrictEq(DoseConstraint(deliveredDose, constraintDose), Fin(1.0)) <==> Le(deliveredDose, constraintDose)
    ensures DoseConstraint(deliveredDose, constraintDose) == Fin(0.0) <==> !Le(deliveredDose, constraintDose)
  {
  }

  /** Total treatment time is a whole number of weeks: seven times the
      ceiling of fractions over fractions per week, so at least 7n/f and
      less than 7n/f + 7 when f > 0; with f = 0 it is not finite. */
  lemma TotalTreatmentTimeWeeks(n: real, f: real)
    ensures f != 0.0 ==> TotalTreatmentTime(Fin(n), Fin(f)) == Fin(7.0 * CeilReal(n / f) as real)
    ensures f > 0.0 ==> 7.0 * n / f <= TotalTreatmentTime(Fin(n), Fin(f)).r < 7.0 * n / f + 7.0
    ensures f == 0.0 ==> !IsFinite(TotalTreatmentTime(Fin(n), Fin(f)))
  {
    if f != 0.0 {
      var weeks := CeilReal(n / f);
      assert TotalTreatmentTime(Fin(n), Fin(f)) == Fin(weeks as real * 7.0);
      assert 7.0 * n / f == 7.0 * (n / f);
    }
  }

  /** Tumour doubling time is +Infinity whenever the tumour did not grow
      (final volume not above the initial one). */
  lemma DoublingTimeGuard(lib: MathLib, initialVolume: Num, finalVolume: Num, timeDays: Num)
    ensures Le(finalVolume, initialVolume) ==> DoublingTime(lib, initialVolume, finalVolume, timeDays) == PosInf
    ensures !Le(finalVolume, initialVolume) ==>
      DoublingTime(lib, initialVolume, finalVolume, timeDays)
        == Div(Mul(timeDays, lib.log(Fin(2.0))), lib.log(Div(finalVolume, initialVolume)))
  {
  }

  /** The cell kill fraction (id 32) is one minus LQ survival (id 31). */
  lemma CellKillComplementsSurvival(lib: MathLib, doseGy: Num, alpha: Num, beta: Num)
    ensures CellKill(lib, doseGy, alpha, beta) == Sub(Fin(1.0), LqSurvival(lib, doseGy, alpha, beta))
    ensures LqSurvival(lib, doseGy, alpha, beta).Fin? ==>
      CellKill(lib, doseGy, alpha, beta).r + LqSurvival(lib, doseGy, alpha, beta).r == 1.0
  {
  }

  /** The therapeutic ratio is +Infinity only for an NTCP of exactly 0: a
      negative NTCP gives a finite (negative for positive TCP) ratio. */
  lemma TherapeuticRatioZero(tcp: Num, ntcp: Num)
    ensures ntcp == Fin(0.0) ==> TherapeuticRatio(tcp, ntcp) == PosInf
    ensures tcp.Fin? && ntcp.Fin? && ntcp.r != 0.0 ==> TherapeuticRatio(tcp, ntcp) == Fin(tcp.r / ntcp.r)
    ensures tcp.Fin? && tcp.r > 0.0 && ntcp.Fin? && ntcp.r < 0.0 ==> TherapeuticRatio(tcp, ntcp).r < 0.0
  {
    if tcp.Fin? && tcp.r > 0.0 && ntcp.Fin? && ntcp.r < 0.0 {
      assert tcp.r / ntcp.r < 0.0 by {
        var q := tcp.r / ntcp.r;
        assert q * ntcp.r == tcp.r;
      }
    }
  }

  /** Monitor units are +Infinity when output factor times TPR is 0. */
  lemma MonitorUnitsZeroFactor(doseCgy: Num, outputFactor: Num, tpr: Num)
    ensures outputFactor.Fin? && tpr.Fin? && outputFactor.r * tpr.r == 0.0 ==>
      MonitorUnits(doseCgy, outputFactor, tpr) == PosInf
    ensures doseCgy.Fin? && outputFactor.Fin? && tpr.Fin? && outputFactor.r * tpr.r != 0.0 ==>
      MonitorUnits(doseCgy, outputFactor, tpr) == Fin(doseCgy.r / (outputFactor.r * tpr.r))
  {
  }

  /** The IMRT score is a convex combination (weights 0.5, 0.3, 0.2 sum to
      1): equal inputs give that value, inputs in [0, 1] a score in [0, 1]. */
  lemma ImrtScoreConvex(targetCoverage: real, oarSparing: real, conformity: real)
    ensures targetCoverage == oarSparing == conformity ==>
      ImrtScore(Fin(targetCoverage), Fin(oarSparing), Fin(conformity)) == Fin(targetCoverage)
    ensures 0.0 <= targetCoverage <= 1.0 && 0.0 <= oarSparing <= 1.0 && 0.0 <= conformity <= 1.0 ==>
      0.0 <= ImrtScore(Fin(targetCoverage), Fin(oarSparing), Fin(conformity)).r <= 1.0
  {
  }

  /** The van Herk margin grows with both error components and is never
      negative for non-negative errors. */
  lemma VanHerkMarginMonotone(sys1: real, rnd1: real, sys2: real, rnd2: real)
    ensures sys1 <= sys2 && rnd1 <= rnd2 ==>
      VanHerkMargin(Fin(sys1), Fin(rnd1)).r <= VanHerkMargin(Fin(sys2), Fin(rnd2)).r
    ensures sys1 >= 0.0 && rnd1 >= 0.0 ==> VanHerkMargin(Fin(sys1), Fin(rnd1)).r >= 0.0
  {
  }

  /** With finite inputs and p + k non-zero the OER is a real quotient. */
  lemma OerValue(po2Mmhg: real, k: real)
    requires po2Mmhg + k != 0.0
    ensures Oer(Fin(po2Mmhg), Fin(k)) == Fin((k * po2Mmhg + k) / (po2Mmhg + k))
  {
    assert Add(Mul(Fin(k), Fin(po2Mmhg)), Fin(k)) == Fin(k * po2Mmhg + k);
    assert Add(Fin(po2Mmhg), Fin(k)) == Fin(po2Mmhg + k);
  }

  /** The oxygen enhancement ratio (k p + k) / (p + k) is 1 at zero oxygen
      tension and lies between 1 and k for k >= 1 and p >= 0. */
  lemma OerBounds(po2Mmhg: real, k: real)
    requires po2Mmhg >= 0.0 && k >= 1.0
    ensures Oer(Fin(po2Mmhg), Fin(k)).Fin?
    ensures 1.0 <= Oer(Fin(po2Mmhg), Fin(k)).r <= k
    ensures po2Mmhg == 0.0 ==> Oer(Fin(po2Mmhg), Fin(k)) == Fin(1.0)
  {
    var p := po2Mmhg;
    var sum := p + k;
    OerValue(p, k);
    var q := (k * p + k) / sum;
    QuotientTimes(k * p + k, sum);
    assert q * sum == k * p + k;
    assert (q - 1.0) * sum == q * sum - sum;
    assert (q - 1.0) * sum == p * (k - 1.0);
    assert p * (k - 1.0) >= 0.0;
    QuotientSign(p * (k - 1.0), sum, q - 1.0);
    assert (k - q) * sum == k * sum - q * sum;
    assert (k - q) * sum == k * (k - 1.0);
    assert k * (k - 1.0) >= 0.0;
    QuotientSign(k * (k - 1.0), sum, k - q);
    if p == 0.0 {
      assert (q - 1.0) * sum == 0.0;
    }
  }

  /** The wedge transmission factor falls linearly from 1 at 0 degrees. */
  lemma WedgeTransmissionLine(wedgeAngle: real)
    ensures WedgeTransmission(Fin(wedgeAngle)) == Fin(1.0 - wedgeAngle / 180.0)
  {
    assert Div(Fin(wedgeAngle), Fin(90.0)) == Fin(wedgeAngle / 90.0);
    assert (wedgeAngle / 90.0) * 0.5 == wedgeAngle / 180.0;
  }

  /** No wedge transmits everything; a 90 degree wedge transmits half. */
  lemma WedgeTransmissionEnds()
    ensures WedgeTransmission(Fin(0.0)) == Fin(1.0)
    ensures WedgeTransmission(Fin(90.0)) == Fin(0.5)
  {
    WedgeTransmissionLine(0.0);
    WedgeTransmissionLine(90.0);
  }

  /** A non-zero finite value over itself is 1, and so is its square. */
  lemma SquaredSelfQuotient(x: real)
    requires x != 0.0
    ensures Sq(Div(Fin(x), Fin(x))) == Fin(1.0)
  {
    SelfQuotient(x);
    assert Div(Fin(x), Fin(x)) == Fin(1.0);
  }

  /** Equal distances leave the intensity unchanged. */
  lemma InverseSquareEqualDistances(intensity: real, distance: real)
    requires distance != 0.0
    ensures InverseSquare(Fin(intensity), Fin(distance), Fin(distance)) == Fin(intensity)
  {
    SquaredSelfQuotient(distance);
  }

  /** Equal source-surface distances give a Mayneord factor of 1. */
  lemma MayneordEqualSsd(ssd: real, depth: real)
    requires ssd != 0.0 && ssd + depth != 0.0
    ensures MayneordF(Fin(ssd), Fin(depth), Fin(ssd)) == Fin(1.0)
  {
    assert Add(Fin(ssd), Fin(depth)) == Fin(ssd + depth);
    SquaredSelfQuotient(ssd + depth);
    SquaredSelfQuotient(ssd);
  }

  /** A sub-population over a positive total gives a fraction in [0, 1]. */
  lemma GrowthFractionUnit(proliferatingCells: real, totalCells: real)
    requires 0.0 <= proliferatingCells <= totalCells && totalCells > 0.0
    ensures GrowthFraction(Fin(proliferatingCells), Fin(totalCells)).Fin?
    ensures 0.0 <= GrowthFraction(Fin(proliferatingCells), Fin(totalCells)).r <= 1.0
  {
    var q := proliferatingCells / totalCells;
    assert q * totalCells == proliferatingCells;
  }

  /** Equal D2 and D98 give a homogeneity index of 0; a zero D50 gives
      +Infinity. */
  lemma HomogeneityIndexIdeal(d2: real, d98: real, d50: real)
    ensures d2 == d98 && d50 != 0.0 ==> HomogeneityIndex(Fin(d2), Fin(d98), Fin(d50)) == Fin(0.0)
    ensures d50 == 0.0 ==> HomogeneityIndex(Fin(d2), Fin(d98), Fin(d50)) == PosInf
  {
  }
}
