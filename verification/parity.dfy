/** Where the browser formulas (src/calculators.js) and the Python
    calculator (radiation_oncology_calc.py) agree, and where they part:
    Python raises on a float division by zero where the browser carries on
    with an infinity or NaN, and the two therapeutic ratios disagree for a
    negative NTCP. Finite inputs throughout; a shared `exp`/`log` is stated
    as a hypothesis tying the browser's library to Python's. */
module Parity {
  import opened JsNumber
  import opened RealArith
  import F = Formulas
  import P = PyCalculator

  /** BED agrees whenever alpha/beta is non-zero; at 0 Python raises and
      the browser's value is not finite. */
  lemma BedAgrees(totalDose: real, dosePerFx: real, alphaBeta: real)
    ensures alphaBeta != 0.0 ==>
      F.Bed(Fin(totalDose), Fin(dosePerFx), Fin(alphaBeta))
        == Fin(P.BiologicallyEffectiveDose(totalDose, dosePerFx, alphaBeta).value)
    ensures alphaBeta == 0.0 ==>
      P.BiologicallyEffectiveDose(totalDose, dosePerFx, alphaBeta).Raise?
      && !F.Bed(Fin(totalDose), Fin(dosePerFx), Fin(alphaBeta)).Fin?
  {
    if alphaBeta != 0.0 {
      assert Add(Fin(1.0), Div(Fin(dosePerFx), Fin(alphaBeta))) == Fin(1.0 + dosePerFx / alphaBeta);
    } else {
      var q := Div(Fin(dosePerFx), Fin(alphaBeta));
      assert !q.Fin?;
      assert !Add(Fin(1.0), q).Fin?;
    }
  }

  /** EQD2 agrees whenever alpha/beta is neither 0 nor -2; at -2 Python
      raises and the browser's value is not finite. */
  lemma Eqd2Agrees(totalDose: real, dosePerFx: real, alphaBeta: real)
    ensures alphaBeta != 0.0 && alphaBeta != -2.0 ==>
      F.Eqd2(Fin(totalDose), Fin(dosePerFx), Fin(alphaBeta))
        == Fin(P.EquivalentDose2Gy(totalDose, dosePerFx, alphaBeta).value)
    ensures alphaBeta == -2.0 ==>
      P.EquivalentDose2Gy(totalDose, dosePerFx, alphaBeta).Raise?
      && !F.Eqd2(Fin(totalDose), Fin(dosePerFx), Fin(alphaBeta)).Fin?
  {
    BedAgrees(totalDose, dosePerFx, alphaBeta);
    if alphaBeta != 0.0 && alphaBeta != -2.0 {
      F.Eqd2IsScaledBed(totalDose, dosePerFx, alphaBeta);
      P.Eqd2IsScaledBed(totalDose, dosePerFx, alphaBeta);
    } else if alphaBeta == -2.0 {
      var bed := F.Bed(Fin(totalDose), Fin(dosePerFx), Fin(alphaBeta));
      assert bed.Fin?;
      assert Add(Fin(1.0), Div(Fin(2.0), Fin(alphaBeta))) == Fin(0.0);
      assert F.Eqd2(Fin(totalDose), Fin(dosePerFx), Fin(alphaBeta)) == Div(bed, Fin(0.0));
    }
  }

  /** The therapeutic ratios agree exactly when NTCP is not negative: for a
      negative NTCP Python answers infinity, the browser a finite
      quotient. */
  lemma TherapeuticRatioAgreesIff(tcp: real, ntcp: real)
    ensures F.TherapeuticRatio(Fin(tcp), Fin(ntcp)) == P.TherapeuticRatio(tcp, ntcp) <==> ntcp >= 0.0
  {
    F.TherapeuticRatioZero(Fin(tcp), Fin(ntcp));
  }

  /** Monitor units agree when output factor times TPR is non-zero;
      otherwise Python raises and the browser shows +Infinity. */
  lemma MonitorUnitsAgree(doseCgy: real, outputFactor: real, tpr: real)
    ensures outputFactor * tpr != 0.0 ==>
      F.MonitorUnits(Fin(doseCgy), Fin(outputFactor), Fin(tpr))
        == Fin(P.MonitorUnits(doseCgy, outputFactor, tpr).value)
    ensures outputFactor * tpr == 0.0 ==>
      P.MonitorUnits(doseCgy, outputFactor, tpr).Raise?
      && F.MonitorUnits(Fin(doseCgy), Fin(outputFactor), Fin(tpr)) == PosInf
  {
    assert Mul(Fin(outputFactor), Fin(tpr)) == Fin(outputFactor * tpr);
  }

  /** With the same exponential, TMR (and so TPR) agrees on all inputs. */
  lemma TmrAgrees(lib: MathLib, exp: real -> real, depthCm: real, fieldSizeCm: real)
    requires forall x :: lib.exp(Fin(x)) == Fin(exp(x))
    ensures F.Tmr(lib, Fin(depthCm), Fin(fieldSizeCm)) == Fin(P.TissueMaximumRatio(exp, depthCm, fieldSizeCm))
    ensures F.Tpr(lib, Fin(depthCm), Fin(fieldSizeCm)) == Fin(P.TissuePhantomRatio(exp, depthCm, fieldSizeCm))
  {
    F.TmrTpr(lib, Fin(depthCm), Fin(fieldSizeCm));
    if depthCm > 1.5 {
      var arg := -0.04 * (depthCm - 1.5);
      assert Mul(Fin(-0.04), Sub(Fin(depthCm), Fin(1.5))) == Fin(arg);
      assert Add(Fin(1.0), Mul(Fin(0.01), Fin(fieldSizeCm))) == Fin(1.0 + 0.01 * fieldSizeCm);
      assert lib.exp(Fin(arg)) == Fin(exp(arg));
    }
  }

  /** With the same exponential, the cell kill fractions agree. */
  lemma CellKillAgrees(lib: MathLib, exp: real -> real, doseGy: real, alpha: real, beta: real)
    requires forall x :: lib.exp(Fin(x)) == Fin(exp(x))
    ensures F.CellKill(lib, Fin(doseGy), Fin(alpha), Fin(beta))
            == Fin(P.CellKillFraction(exp, doseGy, alpha, beta))
  {
    var arg := -alpha * doseGy - beta * (doseGy * doseGy);
    assert Sub(Mul(Neg(Fin(alpha)), Fin(doseGy)), Mul(Fin(beta), Sq(Fin(doseGy)))) == Fin(arg);
    assert lib.exp(Fin(arg)) == Fin(exp(arg));
  }

  /** The browser's pass/fail number is 1 exactly when Python answers
      True. */
  lemma DoseConstraintAgrees(deliveredDose: real, constraintDose: real)
    ensures F.DoseConstraint(Fin(deliveredDose), Fin(constraintDose))
            == (if P.DoseConstraintEvaluation(deliveredDose, constraintDose) then Fin(1.0) else Fin(0.0))
  {
  }

  /** Total treatment time agrees for a non-zero weekly rate; at 0 Python
      raises and the browser's value is not finite. */
  lemma TotalTreatmentTimeAgrees(numberOfFractions: real, fractionsPerWeek: real)
    ensures fractionsPerWeek != 0.0 ==>
      F.TotalTreatmentTime(Fin(numberOfFractions), Fin(fractionsPerWeek))
        == Fin(P.TotalTreatmentTime(numberOfFractions, fractionsPerWeek).value as real)
    ensures fractionsPerWeek == 0.0 ==>
      P.TotalTreatmentTime(numberOfFractions, fractionsPerWeek).Raise?
      && !F.TotalTreatmentTime(Fin(numberOfFractions), Fin(fractionsPerWeek)).Fin?
  {
    F.TotalTreatmentTimeWeeks(numberOfFractions, fractionsPerWeek);
    if fractionsPerWeek != 0.0 {
      var weeks := CeilReal(numberOfFractions / fractionsPerWeek);
      assert (weeks * 7) as real == 7.0 * weeks as real;
    }
  }

  /** The overall-treatment-time corrections agree on all inputs. */
  lemma OttCorrectionAgrees(plannedDays: real, actualDays: real, doseLossPerDayGy: real)
    ensures F.OttCorrection(Fin(plannedDays), Fin(actualDays), Fin(doseLossPerDayGy))
            == Fin(P.OverallTreatmentTimeCorrection(plannedDays, actualDays, doseLossPerDayGy))
  {
  }

  /** The DVH points agree whenever Python returns; where it raises (a
      negative dose point against a total of 0) the browser shows
      +Infinity. */
  lemma DvhPointAgrees(doseGy: real, totalDoseGy: real)
    ensures P.DoseVolumeHistogramPoint(doseGy, totalDoseGy).Ok? ==>
      F.DvhPoint(Fin(doseGy), Fin(totalDoseGy)) == Fin(P.DoseVolumeHistogramPoint(doseGy, totalDoseGy).value)
    ensures P.DoseVolumeHistogramPoint(doseGy, totalDoseGy).Raise? ==>
      F.DvhPoint(Fin(doseGy), Fin(totalDoseGy)) == PosInf
  {
    if doseGy < totalDoseGy && totalDoseGy != 0.0 {
      assert Sub(Fin(1.0), Div(Fin(doseGy), Fin(totalDoseGy))) == Fin(1.0 - doseGy / totalDoseGy);
    }
  }

  /** The stereotactic BEDs agree for a non-zero number of fractions; with
      none Python raises and the browser's value is not finite. */
  lemma StereotacticAgrees(prescribedDoseGy: real, numberOfFractions: real)
    ensures numberOfFractions != 0.0 ==>
      F.Sbrt(Fin(prescribedDoseGy), Fin(numberOfFractions))
        == Fin(P.StereotacticDose(prescribedDoseGy, numberOfFractions).value)
    ensures numberOfFractions == 0.0 ==>
      P.StereotacticDose(prescribedDoseGy, numberOfFractions).Raise?
      && !F.Sbrt(Fin(prescribedDoseGy), Fin(numberOfFractions)).Fin?
  {
    if numberOfFractions != 0.0 {
      var d := prescribedDoseGy / numberOfFractions;
      assert Div(Fin(prescribedDoseGy), Fin(numberOfFractions)) == Fin(d);
      assert Add(Fin(1.0), Div(Fin(d), Fin(10.0))) == Fin(1.0 + d / 10.0);
    } else {
      var q := Div(Fin(prescribedDoseGy), Fin(numberOfFractions));
      assert !q.Fin?;
      assert !Div(q, Fin(10.0)).Fin?;
      assert !Add(Fin(1.0), Div(q, Fin(10.0))).Fin?;
    }
  }

  /** Both doubling times are infinite when the tumour did not grow; with
      the same logarithm they agree whenever Python returns. */
  lemma DoublingTimeAgrees(lib: MathLib, log: real -> real, initialVolume: real, finalVolume: real, timeDays: real)
    requires forall x :: lib.log(Fin(x)) == Fin(log(x))
    ensures finalVolume <= initialVolume ==>
      F.DoublingTime(lib, Fin(initialVolume), Fin(finalVolume), Fin(timeDays)) == PosInf
      && P.TumorDoublingTime(log, initialVolume, finalVolume, timeDays) == P.Ok(PosInf)
    ensures P.TumorDoublingTime(log, initialVolume, finalVolume, timeDays).Ok? ==>
      F.DoublingTime(lib, Fin(initialVolume), Fin(finalVolume), Fin(timeDays))
        == P.TumorDoublingTime(log, initialVolume, finalVolume, timeDays).value
  {
    F.DoublingTimeGuard(lib, Fin(initialVolume), Fin(finalVolume), Fin(timeDays));
    if finalVolume > initialVolume && initialVolume != 0.0 {
      var ratio := finalVolume / initialVolume;
      assert Div(Fin(finalVolume), Fin(initialVolume)) == Fin(ratio);
      assert lib.log(Fin(ratio)) == Fin(log(ratio));
      assert lib.log(Fin(2.0)) == Fin(log(2.0));
      assert Mul(Fin(timeDays), Fin(log(2.0))) == Fin(timeDays * log(2.0));
    }
  }

  /** `safeDivide` against Python's `/`: the same quotient on a non-zero
      denominator; on a zero one Python raises and the browser answers
      +Infinity, whatever the numerator. */
  lemma SafeDivideAgrees(num: real, den: real)
    ensures den != 0.0 ==> F.SafeDivide(Fin(num), Fin(den)) == Fin(P.TrueDivide(num, den).value)
    ensures den == 0.0 ==> P.TrueDivide(num, den).Raise? && F.SafeDivide(Fin(num), Fin(den)) == PosInf
  {
  }

  /** The ratio calculators the browser routes through `safeDivide` (ids
      14-17, 37, 39 and 46) agree with their Python methods on a non-zero
      denominator; on a zero one Python raises where the browser shows
      +Infinity. */
  lemma ConformityIndexAgrees(v95: real, ptvVolume: real)
    ensures ptvVolume != 0.0 ==> F.ConformityIndex(Fin(v95), Fin(ptvVolume)) == Fin(P.ConformityIndex(v95, ptvVolume).value)
    ensures ptvVolume == 0.0 ==> P.ConformityIndex(v95, ptvVolume).Raise? && F.ConformityIndex(Fin(v95), Fin(ptvVolume)) == PosInf
  {
    SafeDivideAgrees(v95, ptvVolume);
  }

  lemma HomogeneityIndexAgrees(d2: real, d98: real, d50: real)
    ensures d50 != 0.0 ==> F.HomogeneityIndex(Fin(d2), Fin(d98), Fin(d50)) == Fin(P.HomogeneityIndex(d2, d98, d50).value)
    ensures d50 == 0.0 ==> P.HomogeneityIndex(d2, d98, d50).Raise? && F.HomogeneityIndex(Fin(d2), Fin(d98), Fin(d50)) == PosInf
  {
    assert Sub(Fin(d2), Fin(d98)) == Fin(d2 - d98);
    SafeDivideAgrees(d2 - d98, d50);
  }

  lemma PaddickCiAgrees(tvPiv: real, tv: real, piv: real)
    ensures tv * piv != 0.0 ==> F.PaddickCi(Fin(tvPiv), Fin(tv), Fin(piv)) == Fin(P.PaddickConformityIndex(tvPiv, tv, piv).value)
    ensures tv * piv == 0.0 ==> P.PaddickConformityIndex(tvPiv, tv, piv).Raise? && F.PaddickCi(Fin(tvPiv), Fin(tv), Fin(piv)) == PosInf
  {
    assert Sq(Fin(tvPiv)) == Fin(tvPiv * tvPiv);
    assert Mul(Fin(tv), Fin(piv)) == Fin(tv * piv);
    SafeDivideAgrees(tvPiv * tvPiv, tv * piv);
  }

  lemma GradientIndexAgrees(v50: real, vPres: real)
    ensures vPres != 0.0 ==> F.GradientIndex(Fin(v50), Fin(vPres)) == Fin(P.GradientIndex(v50, vPres).value)
    ensures vPres == 0.0 ==> P.GradientIndex(v50, vPres).Raise? && F.GradientIndex(Fin(v50), Fin(vPres)) == PosInf
  {
    SafeDivideAgrees(v50, vPres);
  }

  lemma GrowthFractionAgrees(proliferatingCells: real, totalCells: real)
    ensures totalCells != 0.0 ==>
      F.GrowthFraction(Fin(proliferatingCells), Fin(totalCells)) == Fin(P.TumorGrowthFraction(proliferatingCells, totalCells).value)
    ensures totalCells == 0.0 ==>
      P.TumorGrowthFraction(proliferatingCells, totalCells).Raise? && F.GrowthFraction(Fin(proliferatingCells), Fin(totalCells)) == PosInf
  {
    SafeDivideAgrees(proliferatingCells, totalCells);
  }

  lemma DoseModifyingFactorAgrees(doseWithModifier: real, doseWithoutModifier: real)
    ensures doseWithModifier != 0.0 ==>
      F.DoseModifyingFactor(Fin(doseWithModifier), Fin(doseWithoutModifier))
        == Fin(P.DoseModifyingFactor(doseWithModifier, doseWithoutModifier).value)
    ensures doseWithModifier == 0.0 ==>
      P.DoseModifyingFactor(doseWithModifier, doseWithoutModifier).Raise?
      && F.DoseModifyingFactor(Fin(doseWithModifier), Fin(doseWithoutModifier)) == PosInf
  {
    SafeDivideAgrees(doseWithoutModifier, doseWithModifier);
  }

  lemma DutyCycleAgrees(gateOnTimeSec: real, breathingCycleSec: real)
    ensures breathingCycleSec != 0.0 ==>
      F.DutyCycle(Fin(gateOnTimeSec), Fin(breathingCycleSec)) == Fin(P.RespiratoryGatingDutyCycle(gateOnTimeSec, breathingCycleSec).value)
    ensures breathingCycleSec == 0.0 ==>
      P.RespiratoryGatingDutyCycle(gateOnTimeSec, breathingCycleSec).Raise?
      && F.DutyCycle(Fin(gateOnTimeSec), Fin(breathingCycleSec)) == PosInf
  {
    SafeDivideAgrees(gateOnTimeSec, breathingCycleSec);
  }
}
