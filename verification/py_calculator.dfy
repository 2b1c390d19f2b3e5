/** The pure methods of `RadiationOncologyCalculator`
    (radiation_oncology_calc.py:20-293) that the dashboard's formulas
    parallel. Arguments are finite floats, idealised as reals; a result that
    Python writes as `float('inf')` is a `Num`. Python raises where the
    browser would produce an infinity or NaN: `ZeroDivisionError` for a
    float division by zero and `ValueError` for `math.log` outside its
    domain. `math.exp` and `math.log` are parameters. */
module PyCalculator {
  import opened JsNumber
  import opened RealArith

  datatype PyError = ZeroDivisionError | ValueError

  /** A method's outcome: its return value or the exception it raises. */
  datatype Py<T> = Ok(value: T) | Raise(error: PyError)

  /** `biologically_effective_dose`. */
  function BiologicallyEffectiveDose(totalDose: real, dosePerFx: real, alphaBeta: real): (r: Py<real>)
    ensures r.Raise? <==> alphaBeta == 0.0
    ensures r.Raise? ==> r.error == ZeroDivisionError
  {
    if alphaBeta == 0.0 then Raise(ZeroDivisionError)
    else Ok(totalDose * (1.0 + dosePerFx / alphaBeta))
  }

  /** `equivalent_dose_2gy`: BED over the BED factor of 2 Gy fractions. */
  function EquivalentDose2Gy(totalDose: real, dosePerFx: real, alphaBeta: real): (r: Py<real>)
    ensures r.Raise? <==> alphaBeta == 0.0 || alphaBeta == -2.0
  {
    match BiologicallyEffectiveDose(totalDose, dosePerFx, alphaBeta)
    case Raise(e) => Raise(e)
    case Ok(bed) =>
      var factor := 1.0 + 2.0 / alphaBeta;
      if factor == 0.0 then Raise(ZeroDivisionError)
      else
        assert alphaBeta != -2.0;
        Ok(bed / factor)
  }

  /** `therapeutic_ratio`: infinite for every non-positive NTCP. */
  function TherapeuticRatio(tcp: real, ntcp: real): (r: Num)
    ensures r == PosInf <==> ntcp <= 0.0
    ensures ntcp > 0.0 ==> r == Fin(tcp / ntcp)
  {
    if ntcp > 0.0 then Fin(tcp / ntcp) else PosInf
  }

  /** `tissue_maximum_ratio`. */
  function TissueMaximumRatio(exp: real -> real, depthCm: real, fieldSizeCm: real): real {
    var dmax := 1.5;
    if depthCm <= dmax then 1.0
    else exp(-0.04 * (depthCm - dmax)) * (1.0 + 0.01 * fieldSizeCm)
  }

  /** `tissue_phantom_ratio` delegates to the TMR. */
  function TissuePhantomRatio(exp: real -> real, depthCm: real, fieldSizeCm: real): real {
    TissueMaximumRatio(exp, depthCm, fieldSizeCm)
  }

  /** `monitor_units_calculation`. */
  function MonitorUnits(prescribedDoseCgy: real, outputFactor: real, tpr: real): (r: Py<real>)
    ensures r.Raise? <==> outputFactor == 0.0 || tpr == 0.0
  {
    if outputFactor * tpr == 0.0 then Raise(ZeroDivisionError)
    else Ok(prescribedDoseCgy / (outputFactor * tpr))
  }

  /** Python's `/` on floats: `ZeroDivisionError` on a zero denominator,
      otherwise the quotient. */
  function TrueDivide(num: real, den: real): (r: Py<real>)
    ensures r.Raise? <==> den == 0.0
    ensures r.Raise? ==> r.error == ZeroDivisionError
    ensures r.Ok? ==> r.value * den == num
  {
    if den == 0.0 then Raise(ZeroDivisionError)
    else
      QuotientTimes(num, den);
      Ok(num / den)
  }

  /** `conformity_index`. */
  function ConformityIndex(volume95Percent: real, ptvVolume: real): (r: Py<real>)
    ensures r.Raise? <==> ptvVolume == 0.0
    ensures r.Ok? ==> r.value * ptvVolume == volume95Percent
  {
    TrueDivide(volume95Percent, ptvVolume)
  }

  /** `homogeneity_index`. */
  function HomogeneityIndex(d2Percent: real, d98Percent: real, d50Percent: real): (r: Py<real>)
    ensures r.Raise? <==> d50Percent == 0.0
    ensures r.Ok? ==> r.value * d50Percent == d2Percent - d98Percent
    ensures r.Ok? && d2Percent == d98Percent ==> r.value == 0.0
  {
    TrueDivide(d2Percent - d98Percent, d50Percent)
  }

  /** `paddick_conformity_index`. */
  function PaddickConformityIndex(tvPiv: real, tv: real, piv: real): (r: Py<real>)
    ensures r.Raise? <==> tv == 0.0 || piv == 0.0
    ensures r.Ok? ==> r.value * (tv * piv) == tvPiv * tvPiv
  {
    TrueDivide(tvPiv * tvPiv, tv * piv)
  }

  /** `gradient_index`. */
  function GradientIndex(volume50Percent: real, volumePrescription: real): (r: Py<real>)
    ensures r.Raise? <==> volumePrescription == 0.0
    ensures r.Ok? ==> r.value * volumePrescription == volume50Percent
  {
    TrueDivide(volume50Percent, volumePrescription)
  }

  /** `tumor_growth_fraction`. */
  function TumorGrowthFraction(proliferatingCells: real, totalCells: real): (r: Py<real>)
    ensures r.Raise? <==> totalCells == 0.0
    ensures r.Ok? ==> r.value * totalCells == proliferatingCells
  {
    TrueDivide(proliferatingCells, totalCells)
  }

  /** `dose_modifying_factor`: the dose without the modifier over the dose
      with it. */
  function DoseModifyingFactor(doseWithModifier: real, doseWithoutModifier: real): (r: Py<real>)
    ensures r.Raise? <==> doseWithModifier == 0.0
    ensures r.Ok? ==> r.value * doseWithModifier == doseWithoutModifier
  {
    TrueDivide(doseWithoutModifier, doseWithModifier)
  }

  /** `respiratory_gating_duty_cycle`. */
  function RespiratoryGatingDutyCycle(gateOnTimeSec: real, breathingCycleSec: real): (r: Py<real>)
    ensures r.Raise? <==> breathingCycleSec == 0.0
    ensures r.Ok? ==> r.value * breathingCycleSec == gateOnTimeSec
  {
    TrueDivide(gateOnTimeSec, breathingCycleSec)
  }

  /** `dose_volume_histogram_point`. */
  function DoseVolumeHistogramPoint(doseGy: real, totalDoseGy: real): (r: Py<real>)
    ensures r.Raise? <==> doseGy < totalDoseGy && totalDoseGy == 0.0
    ensures doseGy >= totalDoseGy ==> r == Ok(0.0)
  {
    if doseGy < totalDoseGy then
      if totalDoseGy == 0.0 then Raise(ZeroDivisionError) else Ok(100.0 * (1.0 - doseGy / totalDoseGy))
    else Ok(0.0)
  }

  /** `linear_quadratic_survival`. */
  function LinearQuadraticSurvival(exp: real -> real, doseGy: real, alpha: real, beta: real): real {
    exp(-alpha * doseGy - beta * (doseGy * doseGy))
  }

  /** `cell_kill_fraction`. */
  function CellKillFraction(exp: real -> real, doseGy: real, alpha: real, beta: real): real {
    1.0 - LinearQuadraticSurvival(exp, doseGy, alpha, beta)
  }

  /** `tumor_doubling_time`: infinite unless the tumour grew; otherwise the
      division by the initial volume, the logarithm and the division by the
      logarithm can each raise, in that order. */
  function TumorDoublingTime(log: real -> real, initialVolume: real, finalVolume: real, timeDays: real)
    : (r: Py<Num>)
    ensures finalVolume <= initialVolume ==> r == Ok(PosInf)
    ensures finalVolume > initialVolume && initialVolume == 0.0 ==> r == Raise(ZeroDivisionError)
    ensures finalVolume > initialVolume && initialVolume != 0.0 && finalVolume / initialVolume <= 0.0
            ==> r == Raise(ValueError)
    ensures r.Ok? && finalVolume > initialVolume ==> r.value.Fin?
  {
    if finalVolume <= initialVolume then Ok(PosInf)
    else if initialVolume == 0.0 then Raise(ZeroDivisionError)
    else
      var ratio := finalVolume / initialVolume;
      if ratio <= 0.0 then Raise(ValueError)
      else if log(ratio) == 0.0 then Raise(ZeroDivisionError)
      else Ok(Fin(timeDays * log(2.0) / log(ratio)))
  }

  /** `stereotactic_dose_calculation`: BED at D/n per fraction and
      alpha/beta 10. */
  function StereotacticDose(prescribedDoseGy: real, numberOfFractions: real): (r: Py<real>)
    ensures r.Raise? <==> numberOfFractions == 0.0
  {
    if numberOfFractions == 0.0 then Raise(ZeroDivisionError)
    else BiologicallyEffectiveDose(prescribedDoseGy, prescribedDoseGy / numberOfFractions, 10.0)
  }

  /** `dose_constraint_evaluation`. */
  function DoseConstraintEvaluation(deliveredDose: real, constraintDose: real): bool {
    deliveredDose <= constraintDose
  }

  /** `total_treatment_time`: whole weeks of treatment, in days. */
  function TotalTreatmentTime(numberOfFractions: real, fractionsPerWeek: real): (r: Py<int>)
    ensures r.Raise? <==> fractionsPerWeek == 0.0
  {
    if fractionsPerWeek == 0.0 then Raise(ZeroDivisionError)
    else Ok(CeilReal(numberOfFractions / fractionsPerWeek) * 7)
  }

  /** `overall_treatment_time_correction`. */
  function OverallTreatmentTimeCorrection(plannedDays: real, actualDays: real, doseLossPerDayGy: real): real {
    if actualDays <= plannedDays then 0.0
    else (actualDays - plannedDays) * doseLossPerDayGy
  }

  // ---- Properties ----

  /** EQD2 is BED divided by 1 + 2/alphaBeta. */
  lemma Eqd2IsScaledBed(totalDose: real, dosePerFx: real, alphaBeta: real)
    requires alphaBeta != 0.0 && alphaBeta != -2.0
    ensures BiologicallyEffectiveDose(totalDose, dosePerFx, alphaBeta).Ok?
    ensures EquivalentDose2Gy(totalDose, dosePerFx, alphaBeta)
            == Ok(BiologicallyEffectiveDose(totalDose, dosePerFx, alphaBeta).value / (1.0 + 2.0 / alphaBeta))
  {
    ReferenceFactorNonZero(alphaBeta);
  }

  /** At 2 Gy per fraction EQD2 gives back the total dose. */
  lemma Eqd2AtReferenceDose(totalDose: real, alphaBeta: real)
    requires alphaBeta != 0.0 && alphaBeta != -2.0
    ensures EquivalentDose2Gy(totalDose, 2.0, alphaBeta) == Ok(totalDose)
  {
    var factor := 1.0 + 2.0 / alphaBeta;
    ReferenceFactorNonZero(alphaBeta);
    Eqd2IsScaledBed(totalDose, 2.0, alphaBeta);
    assert BiologicallyEffectiveDose(totalDose, 2.0, alphaBeta).value == totalDose * factor;
    DivCancel(totalDose, factor);
  }

  /** The stereotactic dose is BED at D/n Gy per fraction with alpha/beta
      10. */
  lemma StereotacticIsBed(prescribedDoseGy: real, numberOfFractions: real)
    requires numberOfFractions != 0.0
    ensures StereotacticDose(prescribedDoseGy, numberOfFractions)
            == BiologicallyEffectiveDose(prescribedDoseGy, prescribedDoseGy / numberOfFractions, 10.0)
    ensures StereotacticDose(prescribedDoseGy, numberOfFractions).Ok?
  {
  }

  /** TPR equals TMR on all inputs, and both are 1 down to 1.5 cm. */
  lemma TprIsTmr(exp: real -> real, depthCm: real, fieldSizeCm: real)
    ensures TissuePhantomRatio(exp, depthCm, fieldSizeCm) == TissueMaximumRatio(exp, depthCm, fieldSizeCm)
    ensures depthCm <= 1.5 ==> TissueMaximumRatio(exp, depthCm, fieldSizeCm) == 1.0
  {
  }

  /** The cell kill fraction and the LQ survival sum to 1. */
  lemma CellKillComplementsSurvival(exp: real -> real, doseGy: real, alpha: real, beta: real)
    ensures CellKillFraction(exp, doseGy, alpha, beta) + LinearQuadraticSurvival(exp, doseGy, alpha, beta) == 1.0
  {
  }

  /** The total treatment time is a multiple of 7 days, at least 7n/f and
      less than a week more, for a positive weekly rate. */
  lemma TotalTreatmentTimeWeeks(numberOfFractions: real, fractionsPerWeek: real)
    requires fractionsPerWeek > 0.0
    ensures TotalTreatmentTime(numberOfFractions, fractionsPerWeek).Ok?
    ensures TotalTreatmentTime(numberOfFractions, fractionsPerWeek).value % 7 == 0
    ensures 7.0 * numberOfFractions / fractionsPerWeek
            <= TotalTreatmentTime(numberOfFractions, fractionsPerWeek).value as real
            < 7.0 * numberOfFractions / fractionsPerWeek + 7.0
  {
    var weeks := CeilReal(numberOfFractions / fractionsPerWeek);
    assert TotalTreatmentTime(numberOfFractions, fractionsPerWeek).value == weeks * 7;
    assert (weeks * 7) as real == 7.0 * weeks as real;
    assert 7.0 * numberOfFractions / fractionsPerWeek == 7.0 * (numberOfFractions / fractionsPerWeek);
  }

  /** The OTT correction is 0 without an overrun, the overrun times the
      daily loss otherwise, and never negative for a non-negative loss. */
  lemma OttCorrectionNonNegative(plannedDays: real, actualDays: real, doseLossPerDayGy: real)
    requires doseLossPerDayGy >= 0.0
    ensures OverallTreatmentTimeCorrection(plannedDays, actualDays, doseLossPerDayGy) >= 0.0
    ensures actualDays > plannedDays ==>
      OverallTreatmentTimeCorrection(plannedDays, actualDays, doseLossPerDayGy)
        == (actualDays - plannedDays) * doseLossPerDayGy
  {
    if actualDays > plannedDays {
      ProductNonNegative(actualDays - plannedDays, doseLossPerDayGy);
    }
  }

  /** A tumour that grew from a positive volume gets a finite, positive
      doubling time over a positive elapsed time, given a logarithm that is
      positive above 1. */
  lemma DoublingTimeOfGrowth(log: real -> real, initialVolume: real, finalVolume: real, timeDays: real)
    requires forall x :: x > 1.0 ==> log(x) > 0.0
    requires 0.0 < initialVolume < finalVolume && timeDays > 0.0
    ensures TumorDoublingTime(log, initialVolume, finalVolume, timeDays).Ok?
    ensures TumorDoublingTime(log, initialVolume, finalVolume, timeDays).value.Fin?
    ensures TumorDoublingTime(log, initialVolume, finalVolume, timeDays).value.r > 0.0
  {
    var ratio := finalVolume / initialVolume;
    QuotientTimes(finalVolume, initialVolume);
    assert ratio * initialVolume == finalVolume;
    assert ratio > 1.0;
    var l := log(ratio);
    var l2 := log(2.0);
    assert l > 0.0 && l2 > 0.0;
    PositiveQuotient(timeDays * l2, l);
  }
}
