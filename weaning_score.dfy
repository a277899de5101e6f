/**
 * The demo weaning-risk score of the weaning tool page (`calc_weaning_score`).
 *
 * Each of fourteen measurements becomes a sub-risk in [0,1] (0 = good, 1 = bad), the
 * sub-risks are averaged into three domains, the domains are weighted into a total
 * risk, and the total is turned into a success percentage with one decimal, its
 * complement, and a three-colour traffic light with a fixed text per colour.
 */
module WeaningScore {
  import opened PyRound

  /** The fourteen inputs, in the order the scorer takes them. No range is enforced. */
  datatype Measurement = Measurement(
    mapMmHg: real,          // mean arterial pressure
    heartRate: real,
    vasopressor: real,      // vasopressor requirement, 0..10 on the form
    ecmoFlow: real,         // L/min
    sweep: real,            // sweep gas, L/min
    ecmoFio2: real,
    ventFio2: real,
    peep: real,
    drivingPressure: real,
    lactate: real,
    ph: real,
    pao2: real,
    organ: real,            // organ function, 0 = bad .. 10 = good
    echo: real              // echo score LV/RV, 0 = bad .. 10 = good
  )

  datatype Level = Green | Yellow | Red

  datatype ScoreResult = ScoreResult(success: real, failure: real, level: Level, text: string)

  /** `max(0.0, min(1.0, x))`. */
  function Clamp01(x: real): (r: real)
    ensures 0.0 <= r <= 1.0
    ensures 0.0 <= x <= 1.0 ==> r == x
    ensures x < 0.0 ==> r == 0.0
    ensures x > 1.0 ==> r == 1.0
  {
    var lo := if x < 1.0 then x else 1.0;
    if lo > 0.0 then lo else 0.0
  }

  function Abs(x: real): real {
    if x < 0.0 then -x else x
  }

  // ---------------------------------------------------------------------
  // Sub-risks
  // ---------------------------------------------------------------------

  function MapRisk(mapMmHg: real): (r: real)
    ensures 0.0 <= r <= 1.0
  {
    if mapMmHg < 55.0 then 1.0
    else if mapMmHg < 65.0 then 0.7
    else if mapMmHg <= 85.0 then 0.2
    else 0.5
  }

  function HeartRateRisk(hr: real): (r: real)
    ensures 0.0 <= r <= 1.0
  {
    if hr < 50.0 || hr > 130.0 then 1.0
    else if 50.0 <= hr <= 110.0 then 0.3
    else 0.6
  }

  function VasopressorRisk(vasopressor: real): (r: real)
    ensures 0.0 <= r <= 1.0
  {
    Clamp01(vasopressor / 10.0)
  }

  function Pao2Risk(pao2: real): (r: real)
    ensures 0.0 <= r <= 1.0
  {
    if pao2 < 60.0 then 0.9
    else if pao2 < 80.0 then 0.5
    else 0.2
  }

  function LactateRisk(lactate: real): (r: real)
    ensures 0.0 <= r <= 1.0
  {
    if lactate > 4.0 then 1.0
    else if lactate > 2.0 then 0.6
    else 0.2
  }

  function PhRisk(ph: real): (r: real)
    ensures 0.0 <= r <= 1.0
  {
    if ph < 7.2 || ph > 7.5 then 0.9
    else if 7.3 <= ph <= 7.45 then 0.2
    else 0.5
  }

  function FlowRisk(ecmoFlow: real): (r: real)
    ensures 0.0 <= r <= 1.0
  {
    if ecmoFlow < 2.0 then 1.0
    else if ecmoFlow < 3.0 then 0.6
    else 0.2
  }

  function SweepRisk(sweep: real): (r: real)
    ensures 0.0 <= r <= 1.0
  {
    Clamp01((sweep - 1.0) / 4.0)
  }

  function EcmoFio2Risk(fio2: real): (r: real)
    ensures 0.0 <= r <= 1.0
  {
    Clamp01((fio2 - 0.5) / 0.5)
  }

  function VentFio2Risk(fio2: real): (r: real)
    ensures 0.0 <= r <= 1.0
  {
    Clamp01((fio2 - 0.4) / 0.6)
  }

  function PeepRisk(peep: real): (r: real)
    ensures 0.0 <= r <= 1.0
  {
    Clamp01(Abs(peep - 10.0) / 10.0)
  }

  function DrivingPressureRisk(dp: real): (r: real)
    ensures 0.0 <= r <= 1.0
  {
    Clamp01((dp - 12.0) / 10.0)
  }

  /** Shared by the organ-function and the echo score: 10 is best, 0 is worst. */
  function ScaleRisk(score: real): (r: real)
    ensures 0.0 <= r <= 1.0
  {
    Clamp01((10.0 - score) / 10.0)
  }

  // ---------------------------------------------------------------------
  // Domains and total
  // ---------------------------------------------------------------------

  /** Unweighted mean of the six circulation and gas-exchange sub-risks. */
  function VitalsRisk(m: Measurement): (v: real)
    ensures 0.0 <= v <= 1.0
  {
    (MapRisk(m.mapMmHg) + HeartRateRisk(m.heartRate) + VasopressorRisk(m.vasopressor)
      + Pao2Risk(m.pao2) + LactateRisk(m.lactate) + PhRisk(m.ph)) / 6.0
  }

  /** Mean of the ECMO and ventilator sub-risks, the flow risk counted twice. */
  function EcmoRisk(m: Measurement): (e: real)
    ensures 0.0 <= e <= 1.0
  {
    (FlowRisk(m.ecmoFlow) * 2.0 + SweepRisk(m.sweep) + EcmoFio2Risk(m.ecmoFio2)
      + VentFio2Risk(m.ventFio2) + PeepRisk(m.peep) + DrivingPressureRisk(m.drivingPressure)) / 7.0
  }

  /** Mean of the organ-function and echo sub-risks. */
  function OrgansRisk(m: Measurement): (o: real)
    ensures 0.0 <= o <= 1.0
  {
    (ScaleRisk(m.organ) + ScaleRisk(m.echo)) / 2.0
  }

  /** The weights 0.4, 0.35 and 0.25 sum to 1, so the weighted sum stays in [0,1]. */
  function WeightedRisk(m: Measurement): (w: real)
    ensures 0.0 <= w <= 1.0
  {
    0.4 * EcmoRisk(m) + 0.35 * VitalsRisk(m) + 0.25 * OrgansRisk(m)
  }

  /** The clamped total risk; the clamp never changes the weighted sum. */
  function TotalRisk(m: Measurement): (t: real)
    ensures t == WeightedRisk(m)
  {
    Clamp01(WeightedRisk(m))
  }

  // ---------------------------------------------------------------------
  // Result
  // ---------------------------------------------------------------------

  /** The traffic light for a success percentage. */
  function Classify(success: real): (l: Level)
    ensures l == Green <==> success >= 75.0
    ensures l == Yellow <==> 50.0 <= success < 75.0
    ensures l == Red <==> success < 50.0
  {
    if success >= 75.0 then Green
    else if success >= 50.0 then Yellow
    else Red
  }

  /** The one fixed display text of each level. */
  function LevelText(l: Level): string {
    match l
    case Green => "🟢 Günstiges Weaning-Szenario (Demo)"
    case Yellow => "🟡 Grenzbereich – engmaschig beobachten (Demo)"
    case Red => "🔴 Ungünstiges Weaning-Szenario (Demo)"
  }

  /** `calc_weaning_score`: total over all real inputs, no error path. */
  function Score(m: Measurement): (r: ScoreResult)
    ensures 0.0 <= r.success <= 100.0
    ensures IsTenth(r.success) && IsTenth(r.failure)
    ensures r.success + r.failure == 100.0
    ensures -0.05 <= r.success - (1.0 - WeightedRisk(m)) * 100.0 <= 0.05
    ensures r.level == Classify(r.success) && r.text == LevelText(r.level)
  {
    var success := RoundTenth((1.0 - TotalRisk(m)) * 100.0);
    RoundTenthMonotone(0.0, (1.0 - TotalRisk(m)) * 100.0);
    RoundTenthMonotone((1.0 - TotalRisk(m)) * 100.0, 100.0);
    TenthOfInt(0);
    TenthOfInt(1000);
    RoundTenthOfTenth(0.0);
    RoundTenthOfTenth(100.0);
    TenthComplement(success);
    RoundTenthOfTenth(100.0 - success);
    var failure := RoundTenth(100.0 - success);
    var level := Classify(success);
    ScoreResult(success, failure, level, LevelText(level))
  }

  // ---------------------------------------------------------------------
  // Properties
  // ---------------------------------------------------------------------

  /** The step functions are half-open exactly where the comparisons say. */
  lemma StepBoundaries()
    ensures MapRisk(55.0) == 0.7 && MapRisk(65.0) == 0.2 && MapRisk(85.0) == 0.2
    ensures HeartRateRisk(130.0) == 0.6 && HeartRateRisk(110.5) == 0.6 && HeartRateRisk(50.0) == 0.3
    ensures Pao2Risk(60.0) == 0.5 && Pao2Risk(80.0) == 0.2
    ensures LactateRisk(2.0) == 0.2 && LactateRisk(4.0) == 0.6
    ensures PhRisk(7.2) == 0.5 && PhRisk(7.45) == 0.2 && PhRisk(7.5) == 0.5
    ensures FlowRisk(2.0) == 0.6 && FlowRisk(3.0) == 0.2 && FlowRisk(3.2) == 0.2
  {
  }

  /** A larger weighted risk never gives a larger success percentage. */
  lemma SuccessAntitone(m1: Measurement, m2: Measurement)
    requires WeightedRisk(m1) <= WeightedRisk(m2)
    ensures Score(m2).success <= Score(m1).success
  {
    RoundTenthMonotone((1.0 - TotalRisk(m2)) * 100.0, (1.0 - TotalRisk(m1)) * 100.0);
  }

  /** Moving lactate from at most 2 to above 4 strictly lowers the success percentage. */
  lemma LactateWorsens(m: Measurement, low: real, high: real)
    requires low <= 2.0 < 4.0 < high
    ensures Score(m.(lactate := high)).success < Score(m.(lactate := low)).success
  {
    var good, bad := m.(lactate := low), m.(lactate := high);
    assert VitalsRisk(bad) - VitalsRisk(good) == 0.8 / 6.0;
    assert WeightedRisk(bad) - WeightedRisk(good) == 0.35 * 0.8 / 6.0;
    RoundTenthStrict((1.0 - TotalRisk(bad)) * 100.0, (1.0 - TotalRisk(good)) * 100.0);
  }

  /** A higher ECMO flow never lowers the success percentage. */
  lemma FlowNeverLowers(m: Measurement, low: real, high: real)
    requires low <= high
    ensures Score(m.(ecmoFlow := low)).success <= Score(m.(ecmoFlow := high)).success
  {
    var before, after := m.(ecmoFlow := low), m.(ecmoFlow := high);
    assert FlowRisk(high) <= FlowRisk(low);
    assert EcmoRisk(after) <= EcmoRisk(before);
    SuccessAntitone(after, before);
  }

  /** The form's default inputs: flow 3.2 is not below 3.0, so it is in the 0.2 bucket. */
  function DefaultMeasurement(): Measurement {
    Measurement(70.0, 85.0, 3.0, 3.2, 2.0, 0.6, 0.5, 10.0, 12.0, 2.0, 7.38, 80.0, 7.0, 6.0)
  }

  /** With the defaults the total risk is 0.2273 (to four places): 77.3 % success, green. */
  lemma DefaultExample()
    ensures Score(DefaultMeasurement()) == ScoreResult(77.3, 22.7, Green, LevelText(Green))
  {
    var m := DefaultMeasurement();
    assert VitalsRisk(m) == 1.4 / 6.0;
    assert EcmoRisk(m) == (0.4 + 0.25 + 0.2 + 0.1 / 0.6) / 7.0;
    assert OrgansRisk(m) == 0.35;
    var y := (1.0 - TotalRisk(m)) * 100.0;
    assert 772.5 < y * 10.0 < 773.5;
    assert RoundHalfEven(y * 10.0) == 773;
  }
}
