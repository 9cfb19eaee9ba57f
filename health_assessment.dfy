/** The heart-disease assessment page: the additive risk score over ten
    parsed inputs, its clamping to a percentage and a tier, the two
    presence-only step validators, the health record saved after scoring,
    and the page's three-step flow. */
module HealthAssessment {
  import opened Wrappers
  import opened HealthData

  datatype Gender = Male | Female

  /** The chest-pain codes the page offers: 0 typical angina, 1 atypical
      angina, 2 non-anginal pain, 3 asymptomatic. */
  type ChestPainCode = c: int | 0 <= c <= 3

  /** The resting-ECG codes the page offers: 0 normal, 1 ST-T wave
      abnormality, 2 left ventricular hypertrophy. */
  type EcgCode = e: int | 0 <= e <= 2

  /** The form as the page holds it. `None` is a field left empty; the two
      coded choices always hold a value, 0 until the user picks another. */
  datatype FormData = FormData(
    age: Option<int>,
    gender: Option<Gender>,
    chestPainType: ChestPainCode,
    restingBP: Option<int>,
    cholesterol: Option<int>,
    fastingBS: Option<bool>,
    restingECG: EcgCode,
    maxHR: Option<int>,
    exerciseAngina: Option<bool>,
    oldpeak: Option<real>)

  /** The ten inputs once read from a complete form (`fastingBS` and
      `exerciseAngina` are true for 'yes'). */
  datatype Params = Params(
    age: int,
    gender: Gender,
    chestPainType: ChestPainCode,
    restingBP: int,
    cholesterol: int,
    fastingBS: bool,
    restingECG: EcgCode,
    maxHR: int,
    exerciseAngina: bool,
    oldpeak: real)

  datatype Prediction = Prediction(riskLevel: RiskLevel, percentage: int, recommendations: seq<string>)

  // ----- The ten factors, each a set of disjoint bands -----

  function AgePoints(age: int): int
  {
    if age > 60 then 20 else if age > 45 then 10 else 0
  }

  function GenderPoints(g: Gender): int
  {
    if g.Male? then 10 else 0
  }

  /** Typical and atypical angina count; the other two kinds do not. */
  function ChestPainPoints(c: ChestPainCode): int
  {
    if c <= 1 then 15 else 0
  }

  function BloodPressurePoints(bp: int): int
  {
    if bp > 140 then 15 else if bp > 120 then 5 else 0
  }

  function CholesterolPoints(chol: int): int
  {
    if chol > 240 then 15 else if chol > 200 then 8 else 0
  }

  function FastingSugarPoints(high: bool): int
  {
    if high then 10 else 0
  }

  function EcgPoints(e: EcgCode): int
  {
    if e == 2 then 10 else if e == 1 then 5 else 0
  }

  /** A low peak heart rate counts only for a patient over 40. */
  function MaxHeartRatePoints(maxHR: int, age: int): int
  {
    if maxHR < 120 && age > 40 then 10 else 0
  }

  function AnginaPoints(angina: bool): int
  {
    if angina then 15 else 0
  }

  function OldpeakPoints(oldpeak: real): int
  {
    if oldpeak > 2.0 then 15 else if oldpeak > 1.0 then 8 else 0
  }

  /** The five banded factors: each takes exactly one of its values, and the
      bands meet at strict thresholds. */
  lemma BandedFactors(age: int, bp: int, chol: int, ecg: EcgCode, oldpeak: real)
    ensures AgePoints(age) == 20 <==> age > 60
    ensures AgePoints(age) == 10 <==> 45 < age <= 60
    ensures AgePoints(age) == 0 <==> age <= 45
    ensures BloodPressurePoints(bp) == 15 <==> bp > 140
    ensures BloodPressurePoints(bp) == 5 <==> 120 < bp <= 140
    ensures BloodPressurePoints(bp) == 0 <==> bp <= 120
    ensures CholesterolPoints(chol) == 15 <==> chol > 240
    ensures CholesterolPoints(chol) == 8 <==> 200 < chol <= 240
    ensures CholesterolPoints(chol) == 0 <==> chol <= 200
    ensures EcgPoints(ecg) == 10 <==> ecg == 2
    ensures EcgPoints(ecg) == 5 <==> ecg == 1
    ensures EcgPoints(ecg) == 0 <==> ecg == 0
    ensures OldpeakPoints(oldpeak) == 15 <==> oldpeak > 2.0
    ensures OldpeakPoints(oldpeak) == 8 <==> 1.0 < oldpeak <= 2.0
    ensures OldpeakPoints(oldpeak) == 0 <==> oldpeak <= 1.0
  {
  }

  /** The five yes/no factors: each adds its points exactly when its
      condition holds (chest pain for codes 0 and 1, a peak heart rate below
      120 only past the age of 40). */
  lemma ConditionalFactors(p: Params)
    ensures GenderPoints(p.gender) == (if p.gender == Male then 10 else 0)
    ensures ChestPainPoints(p.chestPainType) == 15 <==> p.chestPainType <= 1
    ensures ChestPainPoints(p.chestPainType) == 0 <==> p.chestPainType >= 2
    ensures FastingSugarPoints(p.fastingBS) == 10 <==> p.fastingBS
    ensures MaxHeartRatePoints(p.maxHR, p.age) == 10 <==> p.maxHR < 120 && p.age > 40
    ensures MaxHeartRatePoints(p.maxHR, p.age) == 0 <==> !(p.maxHR < 120 && p.age > 40)
    ensures AnginaPoints(p.exerciseAngina) == 15 <==> p.exerciseAngina
  {
  }

  /** The raw score: every factor is evaluated, none short-circuits another. */
  function RiskScore(p: Params): (score: int)
    ensures 0 <= score <= 135
  {
    AgePoints(p.age) + GenderPoints(p.gender) + ChestPainPoints(p.chestPainType)
    + BloodPressurePoints(p.restingBP) + CholesterolPoints(p.cholesterol)
    + FastingSugarPoints(p.fastingBS) + EcgPoints(p.restingECG)
    + MaxHeartRatePoints(p.maxHR, p.age) + AnginaPoints(p.exerciseAngina)
    + OldpeakPoints(p.oldpeak)
  }

  /** The score as a percentage: the raw score kept within [5, 95]. */
  function Percentage(score: int): (pct: int)
    ensures 5 <= pct <= 95
    ensures 5 <= score <= 95 ==> pct == score
    ensures score < 5 ==> pct == 5
    ensures score > 95 ==> pct == 95
  {
    if score < 5 then 5 else if score > 95 then 95 else score
  }

  /** The tier of a percentage; 30 and 60 belong to the higher tier. */
  function Tier(pct: int): (level: RiskLevel)
    ensures level == Low <==> pct < 30
    ensures level == Medium <==> 30 <= pct < 60
    ensures level == High <==> pct >= 60
  {
    if pct < 30 then Low else if pct < 60 then Medium else High
  }

  /** Tiers in order of severity. */
  function Rank(level: RiskLevel): nat {
    match level
    case Low => 0
    case Medium => 1
    case High => 2
  }

  const LowRiskAdvice: seq<string> := [
    "Maintain your healthy lifestyle habits",
    "Continue regular exercise (150 min/week)",
    "Annual heart health checkups recommended",
    "Keep a balanced diet rich in vegetables and fruits"]

  const MediumRiskAdvice: seq<string> := [
    "Schedule a consultation with a cardiologist",
    "Monitor blood pressure and cholesterol regularly",
    "Increase physical activity gradually",
    "Reduce sodium and saturated fat intake",
    "Consider stress management techniques"]

  const HighRiskAdvice: seq<string> := [
    "Seek immediate consultation with a cardiologist",
    "Get comprehensive cardiac evaluation",
    "Follow prescribed medication strictly",
    "Major lifestyle modifications needed",
    "Regular monitoring of all vital signs",
    "Consider cardiac rehabilitation program"]

  /** The fixed advice of a tier: four, five or six items. */
  function Recommendations(level: RiskLevel): (advice: seq<string>)
    ensures |advice| == 4 + Rank(level)
    ensures advice[0] == (match level
      case Low => "Maintain your healthy lifestyle habits"
      case Medium => "Schedule a consultation with a cardiologist"
      case High => "Seek immediate consultation with a cardiologist")
  {
    match level
    case Low => LowRiskAdvice
    case Medium => MediumRiskAdvice
    case High => HighRiskAdvice
  }

  /** The outcome of scoring `p`: what `predictHeartDisease` must return. */
  function Assess(p: Params): (r: Prediction)
    ensures 5 <= r.percentage <= 95
    ensures r.riskLevel == Low <==> r.percentage < 30
    ensures r.riskLevel == Medium <==> 30 <= r.percentage < 60
    ensures r.riskLevel == High <==> r.percentage >= 60
    ensures r.recommendations == Recommendations(r.riskLevel)
  {
    var pct := Percentage(RiskScore(p));
    Prediction(Tier(pct), pct, Recommendations(Tier(pct)))
  }

  /** The first half of `predictHeartDisease`: the score, added up factor by
      factor in the order the page evaluates them. */
  method AccumulateRiskScore(p: Params) returns (riskScore: int)
    ensures riskScore == RiskScore(p)
  {
    riskScore := 0;
    if p.age > 60 { riskScore := riskScore + 20; }
    else if p.age > 45 { riskScore := riskScore + 10; }
    assert riskScore == AgePoints(p.age);
    ghost var before := riskScore;
    if p.gender == Male { riskScore := riskScore + 10; }
    assert riskScore == before + GenderPoints(p.gender);
    before := riskScore;
    if p.chestPainType <= 1 { riskScore := riskScore + 15; }
    assert riskScore == before + ChestPainPoints(p.chestPainType);
    before := riskScore;
    if p.restingBP > 140 { riskScore := riskScore + 15; }
    else if p.restingBP > 120 { riskScore := riskScore + 5; }
    assert riskScore == before + BloodPressurePoints(p.restingBP);
    before := riskScore;
    if p.cholesterol > 240 { riskScore := riskScore + 15; }
    else if p.cholesterol > 200 { riskScore := riskScore + 8; }
    assert riskScore == before + CholesterolPoints(p.cholesterol);
    before := riskScore;
    if p.fastingBS { riskScore := riskScore + 10; }
    assert riskScore == before + FastingSugarPoints(p.fastingBS);
    before := riskScore;
    if p.restingECG == 2 { riskScore := riskScore + 10; }
    else if p.restingECG == 1 { riskScore := riskScore + 5; }
    assert riskScore == before + EcgPoints(p.restingECG);
    before := riskScore;
    if p.maxHR < 120 && p.age > 40 { riskScore := riskScore + 10; }
    assert riskScore == before + MaxHeartRatePoints(p.maxHR, p.age);
    before := riskScore;
    if p.exerciseAngina { riskScore := riskScore + 15; }
    assert riskScore == before + AnginaPoints(p.exerciseAngina);
    before := riskScore;
    if p.oldpeak > 2.0 { riskScore := riskScore + 15; }
    else if p.oldpeak > 1.0 { riskScore := riskScore + 8; }
    assert riskScore == before + OldpeakPoints(p.oldpeak);
  }

  /** `predictHeartDisease`: the score, clamped to a percentage, then the
      tier and its advice. */
  method PredictHeartDisease(p: Params) returns (r: Prediction)
    ensures r == Assess(p)
    ensures RiskScore(p) <= 5 ==> r.percentage == 5 && r.riskLevel == Low
  {
    var riskScore := AccumulateRiskScore(p);
    var percentage := if riskScore > 5 then riskScore else 5;
    percentage := if percentage < 95 then percentage else 95;

    var riskLevel: RiskLevel;
    var recommendations: seq<string>;
    if percentage < 30 {
      riskLevel, recommendations := Low, LowRiskAdvice;
    } else if percentage < 60 {
      riskLevel, recommendations := Medium, MediumRiskAdvice;
    } else {
      riskLevel, recommendations := High, HighRiskAdvice;
    }
    r := Prediction(riskLevel, percentage, recommendations);
  }

  // ----- Properties of the score -----

  /** Every factor at its worst: the raw score is 135 and the report is 95%,
      High. */
  lemma AllFactorsGiveMaximum(p: Params)
    requires p.age > 60 && p.gender == Male && p.chestPainType <= 1
    requires p.restingBP > 140 && p.cholesterol > 240 && p.fastingBS
    requires p.restingECG == 2 && p.maxHR < 120 && p.exerciseAngina && p.oldpeak > 2.0
    ensures RiskScore(p) == 135
    ensures Assess(p).percentage == 95 && Assess(p).riskLevel == High
    ensures |Assess(p).recommendations| == 6
  {
  }

  /** No factor fires. */
  predicate NoFactor(p: Params) {
    && p.age <= 45 && p.gender == Female && p.chestPainType >= 2
    && p.restingBP <= 120 && p.cholesterol <= 200 && !p.fastingBS
    && p.restingECG == 0 && !(p.maxHR < 120 && p.age > 40)
    && !p.exerciseAngina && p.oldpeak <= 1.0
  }

  /** The raw score is 0 exactly when no factor fires, and then the report
      is the floor of 5%, Low. */
  lemma ScoreZeroIffNoFactor(p: Params)
    ensures RiskScore(p) == 0 <==> NoFactor(p)
    ensures NoFactor(p) ==> Assess(p).percentage == 5 && Assess(p).riskLevel == Low
  {
  }

  /** `q` is at least as risky as `p` in every ordered input (a lower peak
      heart rate is riskier) and equal in the others. */
  predicate Dominates(q: Params, p: Params) {
    && q.age >= p.age && q.restingBP >= p.restingBP && q.cholesterol >= p.cholesterol
    && q.restingECG >= p.restingECG && q.oldpeak >= p.oldpeak && q.maxHR <= p.maxHR
    && q.gender == p.gender && q.chestPainType == p.chestPainType
    && q.fastingBS == p.fastingBS && q.exerciseAngina == p.exerciseAngina
  }

  /** Raising age, blood pressure, cholesterol, ECG code or ST depression, or
      lowering the peak heart rate, never lowers the raw score. */
  lemma RiskScoreMonotone(p: Params, q: Params)
    requires Dominates(q, p)
    ensures RiskScore(p) <= RiskScore(q)
  {
    assert AgePoints(p.age) <= AgePoints(q.age);
    assert MaxHeartRatePoints(p.maxHR, p.age) <= MaxHeartRatePoints(q.maxHR, q.age);
    assert BloodPressurePoints(p.restingBP) <= BloodPressurePoints(q.restingBP);
    assert CholesterolPoints(p.cholesterol) <= CholesterolPoints(q.cholesterol);
    assert EcgPoints(p.restingECG) <= EcgPoints(q.restingECG);
    assert OldpeakPoints(p.oldpeak) <= OldpeakPoints(q.oldpeak);
  }

  /** ... and so never lowers the reported percentage or tier. */
  lemma AssessMonotone(p: Params, q: Params)
    requires Dominates(q, p)
    ensures Assess(p).percentage <= Assess(q).percentage
    ensures Rank(Assess(p).riskLevel) <= Rank(Assess(q).riskLevel)
  {
    RiskScoreMonotone(p, q);
  }

  // ----- The form and its validation -----

  /** The form when the page opens and after "New Assessment". */
  function InitialForm(): (f: FormData)
    ensures f.age.None? && f.gender.None? && f.restingBP.None? && f.cholesterol.None?
    ensures f.fastingBS.None? && f.maxHR.None? && f.exerciseAngina.None? && f.oldpeak.None?
    ensures f.chestPainType == 0 && f.restingECG == 0
    ensures ChestPainPoints(f.chestPainType) == 15 && EcgPoints(f.restingECG) == 0
  {
    FormData(None, None, 0, None, None, None, 0, None, None, None)
  }

  /** `validateStep1`: the basic-information fields are filled in. */
  predicate ValidateStep1(f: FormData) {
    f.age.Some? && f.gender.Some? && f.restingBP.Some? && f.cholesterol.Some?
  }

  /** `validateStep2`: the health-metric fields are filled in. */
  predicate ValidateStep2(f: FormData) {
    f.fastingBS.Some? && f.maxHR.Some? && f.exerciseAngina.Some? && f.oldpeak.Some?
  }

  /** The same fields are filled in, whatever their values. */
  predicate SamePresence(f: FormData, g: FormData) {
    && f.age.Some? == g.age.Some? && f.gender.Some? == g.gender.Some?
    && f.restingBP.Some? == g.restingBP.Some? && f.cholesterol.Some? == g.cholesterol.Some?
    && f.fastingBS.Some? == g.fastingBS.Some? && f.maxHR.Some? == g.maxHR.Some?
    && f.exerciseAngina.Some? == g.exerciseAngina.Some? && f.oldpeak.Some? == g.oldpeak.Some?
  }

  /** Validation looks at presence only: neither the values nor the two coded
      choices change its verdict. */
  lemma ValidationIsPresenceOnly(f: FormData, g: FormData)
    requires SamePresence(f, g)
    ensures ValidateStep1(f) == ValidateStep1(g)
    ensures ValidateStep2(f) == ValidateStep2(g)
  {
  }

  /** The inputs a complete form is scored on. */
  function ParsedParams(f: FormData): (p: Params)
    requires ValidateStep1(f) && ValidateStep2(f)
    ensures Some(p.age) == f.age && Some(p.gender) == f.gender
    ensures Some(p.restingBP) == f.restingBP && Some(p.cholesterol) == f.cholesterol
    ensures Some(p.fastingBS) == f.fastingBS && Some(p.maxHR) == f.maxHR
    ensures Some(p.exerciseAngina) == f.exerciseAngina && Some(p.oldpeak) == f.oldpeak
    ensures p.chestPainType == f.chestPainType && p.restingECG == f.restingECG
  {
    Params(f.age.value, f.gender.value, f.chestPainType, f.restingBP.value, f.cholesterol.value,
           f.fastingBS.value, f.restingECG, f.maxHR.value, f.exerciseAngina.value, f.oldpeak.value)
  }

  /** No range is enforced: an age of 10 and a resting pressure of 300 pass
      both steps and are scored (the pressure adds its 15 points). */
  lemma OutOfRangeValuesAreScored(f: FormData)
    requires f == InitialForm().(age := Some(10), gender := Some(Female), restingBP := Some(300),
                                 cholesterol := Some(150), fastingBS := Some(false), maxHR := Some(150),
                                 exerciseAngina := Some(false), oldpeak := Some(0.0))
    ensures ValidateStep1(f) && ValidateStep2(f)
    ensures RiskScore(ParsedParams(f)) == 30 && Assess(ParsedParams(f)).riskLevel == Medium
  {
  }

  // ----- The record saved after scoring -----

  /** `Math.round(bp * 0.6)` in exact integer arithmetic. */
  function Diastolic(bp: int): (dia: int)
    ensures -4 <= 10 * dia - 6 * bp <= 4
  {
    var dia := (6 * bp + 5) / 10;
    assert (6 * bp + 5) % 10 != 0;
    dia
  }

  /** JavaScript's `Math.round`: halves go up. */
  function MathRound(x: real): int {
    (x + 0.5).Floor
  }

  /** Diastolic is what `Math.round` gives for 0.6 times the pressure: the
      product is never a half, so the integer formula matches. */
  lemma DiastolicIsMathRound(bp: int)
    ensures Diastolic(bp) == MathRound(bp as real * 0.6)
  {
    var d := Diastolic(bp);
    var x := bp as real * 0.6 + 0.5;
    assert 10.0 * x == (6 * bp + 5) as real;
    assert d as real <= x < d as real + 1.0;
  }

  /** The blood-sugar reading stored for the 'yes'/'no' fasting answer. */
  function FastingBloodSugar(high: bool): (mgdl: int)
    ensures high <==> mgdl > 120
  {
    if high then 130 else 95
  }

  /** The record `handleSubmit` saves: blood pressure, cholesterol, blood
      sugar and the prediction's outcome; no heart rate and no weight. */
  function AssessmentRecord(p: Params, r: Prediction, today: string): (rec: HealthRecord)
    ensures rec.date == today && rec.heartRate.None? && rec.weight.None?
    ensures rec.bloodPressureSystolic == Some(p.restingBP)
    ensures rec.bloodPressureDiastolic == Some(Diastolic(p.restingBP))
    ensures rec.cholesterol == Some(p.cholesterol)
    ensures rec.bloodSugar == Some(FastingBloodSugar(p.fastingBS))
    ensures rec.riskLevel == Some(r.riskLevel) && rec.riskPercentage == Some(r.percentage)
  {
    HealthRecord(today, None, Some(p.restingBP), Some(Diastolic(p.restingBP)), Some(p.cholesterol),
                 Some(FastingBloodSugar(p.fastingBS)), None, Some(r.riskLevel), Some(r.percentage))
  }

  // ----- The page: steps 1 (basic information), 2 (health metrics), 3 (results) -----

  class AssessmentPage {
    var step: int
    var formData: FormData
    var result: Option<Prediction>

    /** Step 2 is reached only through a passing step-1 check, and a result
        exists exactly on step 3, where it is the assessment of the form. */
    ghost predicate Valid()
      reads this
    {
      && 1 <= step <= 3
      && (step >= 2 ==> ValidateStep1(formData))
      && (step == 3 <==> result.Some?)
      && (step == 3 ==> ValidateStep2(formData) && result.value == Assess(ParsedParams(formData)))
    }

    constructor ()
      ensures Valid() && step == 1 && formData == InitialForm() && result == None
    {
      step, formData, result := 1, InitialForm(), None;
    }

    /** An input change on step 1 (the only step that shows these fields). */
    method EditBasicInfo(age: Option<int>, gender: Option<Gender>, chestPainType: ChestPainCode,
                         restingBP: Option<int>, cholesterol: Option<int>)
      requires Valid() && step == 1
      modifies this
      ensures Valid() && step == 1 && result == None
      ensures formData == old(formData).(age := age, gender := gender, chestPainType := chestPainType,
                                         restingBP := restingBP, cholesterol := cholesterol)
    {
      formData := formData.(age := age, gender := gender, chestPainType := chestPainType,
                            restingBP := restingBP, cholesterol := cholesterol);
    }

    /** An input change on step 2 (the only step that shows these fields). */
    method EditHealthMetrics(fastingBS: Option<bool>, restingECG: EcgCode, maxHR: Option<int>,
                             exerciseAngina: Option<bool>, oldpeak: Option<real>)
      requires Valid() && step == 2
      modifies this
      ensures Valid() && step == 2 && result == None
      ensures formData == old(formData).(fastingBS := fastingBS, restingECG := restingECG, maxHR := maxHR,
                                         exerciseAngina := exerciseAngina, oldpeak := oldpeak)
    {
      formData := formData.(fastingBS := fastingBS, restingECG := restingECG, maxHR := maxHR,
                            exerciseAngina := exerciseAngina, oldpeak := oldpeak);
    }

    /** "Continue": `validateStep1() && setStep(2)`. */
    method Continue()
      requires Valid() && step == 1
      modifies this
      ensures Valid() && formData == old(formData) && result == None
      ensures step == (if ValidateStep1(formData) then 2 else 1)
    {
      if ValidateStep1(formData) {
        step := 2;
      }
    }

    /** "Back" from step 2; the form keeps its values. */
    method Back()
      requires Valid() && step == 2
      modifies this
      ensures Valid() && step == 1 && formData == old(formData) && result == None
    {
      step := 1;
    }

    /** "Get Prediction": `validateStep2() && handleSubmit()`. On a complete
        form it scores the form, saves one assessment record dated `today`
        and moves to the results; otherwise nothing changes. */
    method Submit(store: HealthStore, today: string)
      requires Valid() && step == 2
      modifies this, store
      ensures Valid() && formData == old(formData)
      ensures !ValidateStep2(formData) ==>
                step == 2 && result == None && store.healthRecords == old(store.healthRecords)
      ensures ValidateStep2(formData) ==>
                && step == 3
                && result == Some(Assess(ParsedParams(formData)))
                && store.healthRecords == old(store.healthRecords)
                     + [AssessmentRecord(ParsedParams(formData), result.value, today)]
    {
      if ValidateStep2(formData) {
        var p := ParsedParams(formData);
        var prediction := PredictHeartDisease(p);
        result := Some(prediction);
        store.AddHealthRecord(AssessmentRecord(p, prediction, today));
        step := 3;
      }
    }

    /** "New Assessment": back to step 1 with an empty form and no result. */
    method NewAssessment()
      requires Valid() && step == 3
      modifies this
      ensures Valid() && step == 1 && formData == InitialForm() && result == None
    {
      step := 1;
      result := None;
      formData := InitialForm();
    }
  }
}
