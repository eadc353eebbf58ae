/**
 * The water calculator's controller: reading the form with defaults,
 * validating the inputs (first failure wins), and the single slot that
 * keeps the last water result.
 */
module WaterMain {
  import opened Js
  import opened WaterCalcs

  /** The inputs of a water calculation. A field is `None` when the object
      does not have it. */
  datatype WaterData = WaterData(
    waterArea: Option<real>,
    rainFall: Option<real>,
    runoffCoefficient: Option<real>,
    captureEfficiency: Option<real>,
    energySavings: Option<real>,
    projectDuration: Option<real>,
    waterProjectCost: Option<real>,
    waterValue: Option<real>)

  /** What the form's fields parse to: `None` where the text is not a number.
      The duration is read as an integer. */
  datatype FormFields = FormFields(
    waterArea: Option<real>,
    rainFall: Option<real>,
    runoffCoefficient: Option<real>,
    captureEfficiency: Option<real>,
    energySavings: Option<real>,
    projectDuration: Option<int>,
    waterProjectCost: Option<real>,
    waterValue: Option<real>)

  /** The argument of a calculation: the form itself, or an object that
      already holds the inputs. */
  datatype FormSource = FormElement(fields: FormFields) | PlainObject(data: WaterData)

  /** `parseInt(...) || d`: a missing or zero integer gives the default. */
  function IntOrDefault(parsed: Option<int>, fallback: real): (r: real)
    ensures parsed.Some? && parsed.value != 0 ==> r == parsed.value as real
    ensures parsed.None? || parsed.value == 0 ==> r == fallback
  {
    if parsed.Some? && parsed.value != 0 then parsed.value as real else fallback
  }

  /** A form is read field by field, each zero or unreadable number replaced
      by its default (area 5, rainfall 1200, runoff 0.7, capture 0.85,
      energy 1.5, duration 20, cost 200000, water value 50); any other
      argument is used as it is. */
  function GetFormData(src: FormSource): (d: WaterData)
    ensures src.PlainObject? ==> d == src.data
    ensures src.FormElement? ==>
      && d.waterArea.Some? && d.rainFall.Some? && d.runoffCoefficient.Some? && d.captureEfficiency.Some?
      && d.energySavings.Some? && d.projectDuration.Some? && d.waterProjectCost.Some? && d.waterValue.Some?
    ensures src.FormElement? ==>
      && d.waterArea.value == OrDefault(src.fields.waterArea, 5.0)
      && d.rainFall.value == OrDefault(src.fields.rainFall, 1200.0)
      && d.runoffCoefficient.value == OrDefault(src.fields.runoffCoefficient, 0.7)
      && d.captureEfficiency.value == OrDefault(src.fields.captureEfficiency, 0.85)
      && d.energySavings.value == OrDefault(src.fields.energySavings, 1.5)
      && d.projectDuration.value == IntOrDefault(src.fields.projectDuration, 20.0)
      && d.waterProjectCost.value == OrDefault(src.fields.waterProjectCost, 200000.0)
      && d.waterValue.value == OrDefault(src.fields.waterValue, 50.0)
  {
    match src
    case PlainObject(data) => data
    case FormElement(f) =>
      WaterData(
        Some(OrDefault(f.waterArea, 5.0)),
        Some(OrDefault(f.rainFall, 1200.0)),
        Some(OrDefault(f.runoffCoefficient, 0.7)),
        Some(OrDefault(f.captureEfficiency, 0.85)),
        Some(OrDefault(f.energySavings, 1.5)),
        Some(IntOrDefault(f.projectDuration, 20.0)),
        Some(OrDefault(f.waterProjectCost, 200000.0)),
        Some(OrDefault(f.waterValue, 50.0)))
  }

  // ---------------------------------------------------------------------
  // Validation

  datatype WaterError =
    | AreaNotPositive
    | RainfallNotPositive
    | RunoffOutOfRange
    | CaptureOutOfRange
    | DurationTooShort

  /** The field each check rejects, as the messages name it. */
  function FieldName(e: WaterError): string
  {
    match e
    case AreaNotPositive => "Water body area"
    case RainfallNotPositive => "Rainfall"
    case RunoffOutOfRange => "Runoff coefficient"
    case CaptureOutOfRange => "Capture efficiency"
    case DurationTooShort => "Project duration"
  }

  /** The message each failure reports: it starts with the name of the
      rejected field. */
  function Message(e: WaterError): (m: string)
    ensures FieldName(e) <= m && |FieldName(e)| < |m|
  {
    match e
    case AreaNotPositive => "Water body area must be greater than zero"
    case RainfallNotPositive => "Rainfall must be greater than zero"
    case RunoffOutOfRange => "Runoff coefficient must be between 0 and 1"
    case CaptureOutOfRange => "Capture efficiency must be between 0 and 1"
    case DurationTooShort => "Project duration must be at least 1 year"
  }

  /** Different failures report different messages, so the message tells
      which check failed. */
  lemma MessageIdentifiesCheck(e1: WaterError, e2: WaterError)
    ensures Message(e1) == Message(e2) ==> e1 == e2
  {
  }

  /** A missing field or a zero is falsy. */
  predicate Falsy(v: Option<real>)
  {
    v.None? || v.value == 0.0
  }

  predicate AreaFails(d: WaterData) { Falsy(d.waterArea) || d.waterArea.value <= 0.0 }
  predicate RainfallFails(d: WaterData) { Falsy(d.rainFall) || d.rainFall.value <= 0.0 }
  predicate RunoffFails(d: WaterData)
  {
    Falsy(d.runoffCoefficient) || d.runoffCoefficient.value <= 0.0 || d.runoffCoefficient.value > 1.0
  }
  predicate CaptureFails(d: WaterData)
  {
    Falsy(d.captureEfficiency) || d.captureEfficiency.value <= 0.0 || d.captureEfficiency.value > 1.0
  }
  predicate DurationFails(d: WaterData) { Falsy(d.projectDuration) || d.projectDuration.value < 1.0 }

  /** The checks in their fixed order; the first that fails is the one
      reported. */
  function ValidateData(d: WaterData): (r: Outcome<WaterError>)
    ensures r == Fail(AreaNotPositive) <==> AreaFails(d)
    ensures r == Fail(RainfallNotPositive) <==> !AreaFails(d) && RainfallFails(d)
    ensures r == Fail(RunoffOutOfRange) <==> !AreaFails(d) && !RainfallFails(d) && RunoffFails(d)
    ensures r == Fail(CaptureOutOfRange) <==>
      !AreaFails(d) && !RainfallFails(d) && !RunoffFails(d) && CaptureFails(d)
    ensures r == Fail(DurationTooShort) <==>
      !AreaFails(d) && !RainfallFails(d) && !RunoffFails(d) && !CaptureFails(d) && DurationFails(d)
  {
    if AreaFails(d) then Fail(AreaNotPositive)
    else if RainfallFails(d) then Fail(RainfallNotPositive)
    else if RunoffFails(d) then Fail(RunoffOutOfRange)
    else if CaptureFails(d) then Fail(CaptureOutOfRange)
    else if DurationFails(d) then Fail(DurationTooShort)
    else Pass
  }

  /** The data pass exactly when area and rainfall are positive, runoff and
      capture lie in (0, 1] and the duration is at least one year. */
  lemma ValidIffInRange(d: WaterData)
    ensures ValidateData(d) == Pass <==>
      && d.waterArea.Some? && d.waterArea.value > 0.0
      && d.rainFall.Some? && d.rainFall.value > 0.0
      && d.runoffCoefficient.Some? && 0.0 < d.runoffCoefficient.value <= 1.0
      && d.captureEfficiency.Some? && 0.0 < d.captureEfficiency.value <= 1.0
      && d.projectDuration.Some? && d.projectDuration.value >= 1.0
  {
  }

  /** Energy savings, project cost and water value are never checked. */
  lemma UncheckedFields(d: WaterData, energySavings: Option<real>, waterProjectCost: Option<real>,
                        waterValue: Option<real>)
    ensures ValidateData(d.(energySavings := energySavings, waterProjectCost := waterProjectCost,
                            waterValue := waterValue))
         == ValidateData(d)
  {
  }

  /** An untouched form (every field empty) passes on its defaults. */
  lemma FormDefaultsPass()
    ensures ValidateData(GetFormData(FormElement(FormFields(None, None, None, None, None, None, None, None))))
         == Pass
  {
  }

  /** A form can only fail with a number that was actually entered: a
      negative area, rainfall, runoff, capture or duration, or a runoff or
      capture above one. */
  lemma FormFailureNeedsEnteredNumber(f: FormFields)
    ensures ValidateData(GetFormData(FormElement(f))) == Fail(AreaNotPositive) ==>
      f.waterArea.Some? && f.waterArea.value < 0.0
    ensures ValidateData(GetFormData(FormElement(f))) == Fail(RainfallNotPositive) ==>
      f.rainFall.Some? && f.rainFall.value < 0.0
    ensures ValidateData(GetFormData(FormElement(f))) == Fail(RunoffOutOfRange) ==>
      f.runoffCoefficient.Some? && (f.runoffCoefficient.value < 0.0 || f.runoffCoefficient.value > 1.0)
    ensures ValidateData(GetFormData(FormElement(f))) == Fail(CaptureOutOfRange) ==>
      f.captureEfficiency.Some? && (f.captureEfficiency.value < 0.0 || f.captureEfficiency.value > 1.0)
    ensures ValidateData(GetFormData(FormElement(f))) == Fail(DurationTooShort) ==>
      f.projectDuration.Some? && f.projectDuration.value < 0
  {
  }

  // ---------------------------------------------------------------------
  // The result slot

  /** How a calculation ends: rejected by validation (nothing returned), an
      exception (null returned), or a result. */
  datatype ImpactOutcome = Rejected(error: WaterError) | Crashed | Completed(results: WaterResults)

  class WaterCalculator {
    var lastWaterResults: Option<WaterResults>

    /** No result before the first calculation. */
    constructor()
      ensures lastWaterResults == None
    {
      lastWaterResults := None;
    }

    /**
     * One calculation. `capture` is what the capture calculation yields for
     * these inputs (`None` when it throws); `laterStepThrows` says whether a
     * step after the store write throws. Rejected inputs and a failed
     * capture leave the slot alone.
     */
    method CalculateWaterImpact(form: FormSource, capture: Option<WaterResults>, laterStepThrows: bool)
      returns (outcome: ImpactOutcome)
      modifies this
      ensures ValidateData(GetFormData(form)).Fail? ==>
        outcome == Rejected(ValidateData(GetFormData(form)).error) && lastWaterResults == old(lastWaterResults)
      ensures ValidateData(GetFormData(form)) == Pass && capture.None? ==>
        outcome == Crashed && lastWaterResults == old(lastWaterResults)
      ensures ValidateData(GetFormData(form)) == Pass && capture.Some? ==>
        lastWaterResults == capture && outcome == if laterStepThrows then Crashed else Completed(capture.value)
    {
      var formData := GetFormData(form);
      var validation := ValidateData(formData);
      if validation.Fail? {
        return Rejected(validation.error);
      }
      if capture.None? {
        return Crashed;
      }
      var results := capture.value;
      lastWaterResults := Some(results);
      if laterStepThrows {
        return Crashed;
      }
      return Completed(results);
    }

    /** Clears the slot. */
    method ResetWaterCalculator()
      modifies this
      ensures lastWaterResults == None
    {
      lastWaterResults := None;
    }

    method GetLastResults() returns (r: Option<WaterResults>)
      ensures r == lastWaterResults
    {
      r := lastWaterResults;
    }
  }

  /** A rejected calculation between two others does not disturb the slot:
      it still holds the earlier result. */
  method RejectionKeepsEarlierResult(good: FormSource, bad: FormSource, r: WaterResults)
    returns (last: Option<WaterResults>)
    requires ValidateData(GetFormData(good)) == Pass && ValidateData(GetFormData(bad)).Fail?
    ensures last == Some(r)
  {
    var calculator := new WaterCalculator();
    var first := calculator.CalculateWaterImpact(good, Some(r), false);
    var second := calculator.CalculateWaterImpact(bad, Some(r), false);
    last := calculator.GetLastResults();
  }
}
