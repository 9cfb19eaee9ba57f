/** The dashboard's summary cards: the latest health record and the four
    quick-stat values shown for it. */
module DashboardHome {
  import opened Wrappers
  import opened Text
  import opened HealthData
  import HealthAssessment
  import HeartRateMeasure

  /** `healthRecords[healthRecords.length - 1]`: the newest record, absent
      (`undefined`) when there are none. */
  function LatestRecord(records: seq<HealthRecord>): (latest: Option<HealthRecord>)
    ensures latest.None? <==> records == []
    ensures latest.Some? ==> latest.value == records[|records| - 1]
  {
    if records == [] then None else Some(records[|records| - 1])
  }

  /** The newest record is the last one added. */
  lemma LatestAfterAppend(records: seq<HealthRecord>, r: HealthRecord)
    ensures LatestRecord(records + [r]) == Some(r)
  {
  }

  datatype QuickStat = QuickStat(name: string, value: string)

  const Placeholder := "--"

  /** JavaScript truthiness of an optional number: present and not zero. */
  predicate Truthy(v: Option<int>) {
    v.Some? && v.value != 0
  }

  /** `${v}` for a field that may be missing (a present value below 10^21 in
      magnitude, see `Text.IntToString`). */
  function FieldText(v: Option<int>): (s: string)
    ensures |s| >= 1
    ensures v.None? <==> s == "undefined"
  {
    if v.Some? then IntToString(v.value) else "undefined"
  }

  /** One card value: the placeholder unless the field is truthy, otherwise
      the number followed by its unit (every unit starts with a space). */
  function StatText(v: Option<int>, unit: string): (text: string)
    requires |unit| >= 1 && unit[0] == ' '
    ensures text == Placeholder <==> !Truthy(v)
    ensures Truthy(v) ==> text == IntToString(v.value) + unit
    ensures Truthy(v) ==> |text| > |unit| && text[|text| - |unit|..] == unit
  {
    if Truthy(v) then
      var digits := IntToString(v.value);
      assert (digits + unit)[|digits|] == ' ';
      digits + unit
    else Placeholder
  }

  /** The blood-pressure card: guarded by the systolic value only; the
      diastolic half prints as 'undefined' when it is missing. */
  function BloodPressureText(systolic: Option<int>, diastolic: Option<int>): (text: string)
    ensures text == Placeholder <==> !Truthy(systolic)
    ensures Truthy(systolic) ==> text == IntToString(systolic.value) + "/" + FieldText(diastolic)
    ensures Truthy(systolic) && diastolic.None? ==> text == IntToString(systolic.value) + "/undefined"
  {
    if Truthy(systolic) then IntToString(systolic.value) + "/" + FieldText(diastolic) else Placeholder
  }

  const HeartRateUnit := " BPM"
  const BloodSugarUnit := " mg/dL"
  const WeightUnit := " kg"

  /** `quickStats` for the latest record (or for none). */
  function QuickStats(latest: Option<HealthRecord>): (stats: seq<QuickStat>)
    ensures |stats| == 4
    ensures stats[0].name == "Heart Rate" && stats[1].name == "Blood Pressure"
    ensures stats[2].name == "Blood Sugar" && stats[3].name == "Weight"
    ensures latest.None? ==> forall i :: 0 <= i < 4 ==> stats[i].value == Placeholder
    ensures latest.Some? ==>
              && stats[0].value == StatText(latest.value.heartRate, HeartRateUnit)
              && stats[1].value == BloodPressureText(latest.value.bloodPressureSystolic,
                                                     latest.value.bloodPressureDiastolic)
              && stats[2].value == StatText(latest.value.bloodSugar, BloodSugarUnit)
              && stats[3].value == StatText(latest.value.weight, WeightUnit)
  {
    var rec := if latest.Some? then latest.value
               else HealthRecord("", None, None, None, None, None, None, None, None);
    [ QuickStat("Heart Rate", StatText(rec.heartRate, HeartRateUnit)),
      QuickStat("Blood Pressure", BloodPressureText(rec.bloodPressureSystolic, rec.bloodPressureDiastolic)),
      QuickStat("Blood Sugar", StatText(rec.bloodSugar, BloodSugarUnit)),
      QuickStat("Weight", StatText(rec.weight, WeightUnit)) ]
  }

  /** Two truthy readings that display the same card text are the same
      reading: the card loses nothing. */
  lemma StatTextDeterminesReading(v: Option<int>, w: Option<int>, unit: string)
    requires |unit| >= 1 && unit[0] == ' ' && Truthy(v) && Truthy(w)
    requires StatText(v, unit) == StatText(w, unit)
    ensures v == w
  {
    var a, b := StatText(v, unit), StatText(w, unit);
    assert a[..|a| - |unit|] == IntToString(v.value);
    assert b[..|b| - |unit|] == IntToString(w.value);
    IntToStringInjective(v.value, w.value);
  }

  /** Right after a heart-rate measurement the dashboard shows that reading,
      and the other three cards fall back to the placeholder, since the
      newest record carries only a heart rate. */
  lemma DashboardAfterMeasurement(records: seq<HealthRecord>, today: string, bpm: int)
    requires 65 <= bpm <= 89
    ensures QuickStats(LatestRecord(records + [HeartRateMeasure.HeartRateRecord(today, bpm)])) ==
              [ QuickStat("Heart Rate", IntToString(bpm) + HeartRateUnit),
                QuickStat("Blood Pressure", Placeholder),
                QuickStat("Blood Sugar", Placeholder),
                QuickStat("Weight", Placeholder) ]
  {
  }

  /** Right after an assessment the heart-rate and weight cards show the
      placeholder even if an earlier record had them; the blood-sugar card
      shows the stand-in value of the fasting answer, and the
      blood-pressure card shows the resting pressure over its derived
      diastolic value whenever the resting pressure is not zero. */
  lemma DashboardAfterAssessment(records: seq<HealthRecord>, p: HealthAssessment.Params,
                                 r: HealthAssessment.Prediction, today: string)
    ensures var stats := QuickStats(LatestRecord(records + [HealthAssessment.AssessmentRecord(p, r, today)]));
      && stats[0].value == Placeholder && stats[3].value == Placeholder
      && stats[2].value == IntToString(HealthAssessment.FastingBloodSugar(p.fastingBS)) + BloodSugarUnit
      && (p.restingBP != 0 ==>
            stats[1].value == IntToString(p.restingBP) + "/" + IntToString(HealthAssessment.Diastolic(p.restingBP)))
      && (p.restingBP == 0 ==> stats[1].value == Placeholder)
  {
  }
}
