/**
 * Input validation and the rule-based cardiac risk score
 * (backend/utils/preprocessing.py).
 *
 * A request field is a value that `float()` either converts to a finite
 * number, converts to a non-finite one (nan or an infinity, which fails
 * every range check), or rejects with ValueError / TypeError.
 */
module Preprocessing {
  import opened Wrappers
  import opened Factors

  datatype Value = Num(x: real) | NonFinite | Unconvertible

  /** One row of the validation table: field, inclusive bounds, message. */
  datatype Rule = Rule(field: string, min: real, max: real, message: string)

  /** The validation table, in its declaration order. */
  function Rules(): (rules: seq<Rule>)
    ensures |rules| == 10
  {
    [ Rule("age", 0.0, 120.0, "Age must be between 0-120 years"),
      Rule("bp", 60.0, 250.0, "Blood pressure must be between 60-250 mmHg"),
      Rule("cholesterol", 100.0, 600.0, "Cholesterol must be between 100-600 mg/dL"),
      Rule("glucose", 0.0, 400.0, "Glucose must be between 0-400 mg/dL"),
      Rule("maxHr", 40.0, 220.0, "Max heart rate must be between 40-220 bpm"),
      Rule("stDepression", 0.0, 10.0, "ST Depression must be between 0-10"),
      Rule("troponin", 0.0, 50.0, "Troponin must be between 0-50 ng/mL"),
      Rule("ejectionFraction", 10.0, 80.0, "Ejection Fraction must be between 10-80%"),
      Rule("creatinine", 0.3, 15.0, "Creatinine must be between 0.3-15 mg/dL"),
      Rule("bmi", 10.0, 60.0, "BMI must be between 10-60") ]
  }

  type Request = map<string, Value>

  /** A field passes its rule when present, numeric and within the inclusive bounds. */
  predicate Passes(data: Request, rule: Rule)
  {
    rule.field in data && data[rule.field].Num? && rule.min <= data[rule.field].x <= rule.max
  }

  /** The message for a field that fails its rule. */
  function FailureMessage(data: Request, rule: Rule): string
    requires !Passes(data, rule)
  {
    if rule.field !in data then "Missing required field: " + rule.field
    else if data[rule.field].Unconvertible? then "Invalid value for " + rule.field + ": must be a number"
    else rule.message
  }

  /** The first rule, in table order, that the request fails, with its message. */
  function FirstFailure(data: Request, rules: seq<Rule>): (r: Option<string>)
    ensures r.None? <==> forall i :: 0 <= i < |rules| ==> Passes(data, rules[i])
  {
    if rules == [] then None
    else if !Passes(data, rules[0]) then Some(FailureMessage(data, rules[0]))
    else FirstFailure(data, rules[1..])
  }

  /** A reported failure is that of the earliest failing rule: every rule before it passes. */
  lemma {:induction false} FirstFailureIsFirst(data: Request, rules: seq<Rule>)
    requires FirstFailure(data, rules).Some?
    ensures exists k :: && 0 <= k < |rules| && !Passes(data, rules[k])
                        && (forall i :: 0 <= i < k ==> Passes(data, rules[i]))
                        && FirstFailure(data, rules).value == FailureMessage(data, rules[k])
  {
    if Passes(data, rules[0]) {
      FirstFailureIsFirst(data, rules[1..]);
      var k :| && 0 <= k < |rules[1..]| && !Passes(data, rules[1..][k])
               && (forall i :: 0 <= i < k ==> Passes(data, rules[1..][i]))
               && FirstFailure(data, rules[1..]).value == FailureMessage(data, rules[1..][k]);
      assert !Passes(data, rules[k + 1]);
      assert forall i :: 0 <= i < k + 1 ==> Passes(data, rules[i]) by {
        forall i | 0 <= i < k + 1 ensures Passes(data, rules[i]) {
          if i > 0 { assert rules[i] == rules[1..][i - 1]; }
        }
      }
    } else {
      assert !Passes(data, rules[0]);
    }
  }

  /**
   * `validate_input`: walks the table and stops at the first failing field.
   * It succeeds with an empty message exactly when all ten fields pass, and
   * otherwise reports the first failure in table order.
   */
  method ValidateInput(data: Request) returns (valid: bool, message: string)
    ensures valid <==> forall i :: 0 <= i < |Rules()| ==> Passes(data, Rules()[i])
    ensures valid ==> message == ""
    ensures !valid ==> Some(message) == FirstFailure(data, Rules())
  {
    var rules := Rules();
    var i := 0;
    while i < |rules|
      invariant 0 <= i <= |rules|
      invariant forall j :: 0 <= j < i ==> Passes(data, rules[j])
      invariant FirstFailure(data, rules) == FirstFailure(data, rules[i..])
    {
      var rule := rules[i];
      if rule.field !in data {
        return false, "Missing required field: " + rule.field;
      }
      match data[rule.field]
      case Unconvertible =>
        return false, "Invalid value for " + rule.field + ": must be a number";
      case NonFinite =>
        return false, rule.message;
      case Num(value) =>
        if !(rule.min <= value <= rule.max) {
          return false, rule.message;
        }
      assert rules[i..][1..] == rules[i + 1..];
      i := i + 1;
    }
    return true, "";
  }

  /** The ten clinical parameters `calculate_risk_score` reads, after `float()`. */
  datatype Vitals = Vitals(
    age: real, bp: real, cholesterol: real, glucose: real, maxHr: real,
    stDepression: real, troponin: real, ejectionFraction: real, creatinine: real, bmi: real)

  function MinR(a: real, b: real): real { if a <= b then a else b }

  function AgePoints(age: real): (p: real)
    ensures 0.0 <= p <= 25.0
    ensures age <= 30.0 ==> p == 0.0
  {
    if age > 30.0 then MinR(25.0, (age - 30.0) * 0.5) else 0.0
  }

  /** Troponin points: none up to 0.04, otherwise between 15 and 30. */
  function TroponinPoints(troponin: real): (p: real)
    ensures troponin <= 0.04 ==> p == 0.0
    ensures troponin > 0.04 ==> 15.0 <= p <= 30.0
  {
    if troponin > 0.04 then MinR(30.0, 15.0 + (troponin - 0.04) * 100.0) else 0.0
  }

  function EjectionFractionPoints(ef: real): (p: real)
    ensures 0.0 <= p <= 25.0
    ensures ef >= 55.0 ==> p == 0.0
  {
    if ef < 55.0 then MinR(25.0, (55.0 - ef) * 0.8) else 0.0
  }

  /** ST points have a ceiling but no floor: a negative depression lowers the score. */
  function StPoints(stDepression: real): (p: real)
    ensures p <= 20.0
    ensures stDepression >= 0.0 ==> p >= 0.0
  {
    MinR(20.0, stDepression * 8.0)
  }

  function BpPoints(bp: real): (p: real)
    ensures 0.0 <= p <= 10.0
  {
    if bp > 140.0 then MinR(10.0, (bp - 140.0) * 0.15) else 0.0
  }

  function CreatininePoints(creatinine: real): (p: real)
    ensures 0.0 <= p <= 15.0
  {
    if creatinine > 1.3 then MinR(15.0, (creatinine - 1.3) * 8.0) else 0.0
  }

  function BmiPoints(bmi: real): (p: real)
    ensures 0.0 <= p <= 8.0
  {
    if bmi >= 30.0 then MinR(8.0, (bmi - 30.0) * 0.4) else 0.0
  }

  function CholesterolPoints(cholesterol: real): (p: real)
    ensures 0.0 <= p <= 8.0
  {
    if cholesterol > 240.0 then MinR(8.0, (cholesterol - 240.0) * 0.03) else 0.0
  }

  /** A maximum heart rate below 100 adds a tenth of a point per beat short; there is no cap. */
  function MaxHrPoints(maxHr: real): (p: real)
    ensures p >= 0.0
    ensures maxHr >= 100.0 ==> p == 0.0
  {
    if maxHr < 100.0 then (100.0 - maxHr) * 0.1 else 0.0
  }

  function GlucosePoints(glucose: real): (p: real)
    ensures 0.0 <= p <= 10.0
  {
    if glucose > 120.0 then MinR(10.0, (glucose - 120.0) * 0.05) else 0.0
  }

  /** The score before the [1, 99] clamp: a base of 10 plus every component. */
  function RawRisk(v: Vitals): real
  {
    10.0 + AgePoints(v.age) + TroponinPoints(v.troponin) + EjectionFractionPoints(v.ejectionFraction)
    + StPoints(v.stDepression) + BpPoints(v.bp) + CreatininePoints(v.creatinine) + BmiPoints(v.bmi)
    + CholesterolPoints(v.cholesterol) + MaxHrPoints(v.maxHr) + GlucosePoints(v.glucose)
  }

  function AgeFactor(age: real): (r: seq<Factor>)
    ensures |r| <= 1 && (|r| == 1 <==> AgePoints(age) > 15.0)
  {
    if AgePoints(age) > 15.0 then [Factor("Age", AgePoints(age), "High")] else []
  }

  /** The troponin factor is reported for every elevated value; it is Critical above 0.5. */
  function TroponinFactor(troponin: real): (r: seq<Factor>)
    ensures |r| <= 1 && (|r| == 1 <==> troponin > 0.04)
    ensures |r| == 1 ==> (r[0].severity == "Critical" <==> troponin > 0.5)
  {
    if troponin > 0.04 then
      [Factor("Troponin", TroponinPoints(troponin), if troponin > 0.5 then "Critical" else "High")]
    else []
  }

  function EjectionFractionFactor(ef: real): (r: seq<Factor>)
    ensures |r| <= 1 && (|r| == 1 <==> EjectionFractionPoints(ef) > 12.0)
  {
    if ef < 55.0 && EjectionFractionPoints(ef) > 12.0 then
      [Factor("Ejection Fraction", EjectionFractionPoints(ef), if ef < 30.0 then "Critical" else "High")]
    else []
  }

  function StFactor(stDepression: real): (r: seq<Factor>)
    ensures |r| <= 1 && (|r| == 1 <==> StPoints(stDepression) > 10.0)
  {
    if StPoints(stDepression) > 10.0 then [Factor("ST Depression", StPoints(stDepression), "High")] else []
  }

  function CreatinineFactor(creatinine: real): (r: seq<Factor>)
    ensures |r| <= 1 && (|r| == 1 <==> CreatininePoints(creatinine) > 8.0)
  {
    if creatinine > 1.3 && CreatininePoints(creatinine) > 8.0 then
      [Factor("Creatinine", CreatininePoints(creatinine), "High")]
    else []
  }

  /** The factors appended, in the order the checks run. */
  function RiskFactors(v: Vitals): (r: seq<Factor>)
  {
    AgeFactor(v.age) + TroponinFactor(v.troponin) + EjectionFractionFactor(v.ejectionFraction)
    + StFactor(v.stDepression) + CreatinineFactor(v.creatinine)
  }

  function RiskCategory(score: real): (c: string)
    ensures c == "Low" <==> score < 30.0
    ensures c == "Moderate" <==> 30.0 <= score < 60.0
    ensures c == "High" <==> 60.0 <= score < 85.0
    ensures c == "Critical" <==> score >= 85.0
  {
    if score < 30.0 then "Low"
    else if score < 60.0 then "Moderate"
    else if score < 85.0 then "High"
    else "Critical"
  }

  datatype RiskResult = RiskResult(riskScore: real, topFactors: seq<Factor>, riskCategory: string)

  /**
   * `calculate_risk_score`: the raw score clamped into [1, 99] (unchanged when
   * already inside), the three strongest of the reported factors, and the
   * category of the clamped score.
   */
  function CalculateRiskScore(v: Vitals): (r: RiskResult)
    ensures 1.0 <= r.riskScore <= 99.0
    ensures 1.0 <= RawRisk(v) <= 99.0 ==> r.riskScore == RawRisk(v)
    ensures RawRisk(v) < 1.0 ==> r.riskScore == 1.0
    ensures RawRisk(v) > 99.0 ==> r.riskScore == 99.0
    ensures r.topFactors == TopThree(RiskFactors(v))
    ensures r.riskCategory == RiskCategory(r.riskScore)
  {
    var raw := RawRisk(v);
    var risk := MinR(99.0, if raw >= 1.0 then raw else 1.0);
    RiskResult(risk, TopThree(RiskFactors(v)), RiskCategory(risk))
  }

  /** Every reported factor is one of the five kinds, each at most once, and the troponin one iff elevated. */
  lemma RiskFactorsShape(v: Vitals)
    ensures |RiskFactors(v)| <= 5
    ensures (exists i :: 0 <= i < |RiskFactors(v)| && RiskFactors(v)[i].name == "Troponin") <==> v.troponin > 0.04
  {
    var a, t, e := AgeFactor(v.age), TroponinFactor(v.troponin), EjectionFractionFactor(v.ejectionFraction);
    var s, c := StFactor(v.stDepression), CreatinineFactor(v.creatinine);
    var fs := RiskFactors(v);
    assert fs == a + t + e + s + c;
    if v.troponin > 0.04 {
      assert fs[|a|] == t[0];
    } else {
      forall i | 0 <= i < |fs| ensures fs[i].name != "Troponin" {
        assert fs[i] in a + e + s + c;
      }
    }
  }

  /**
   * `v2` is no milder than `v1` in any reading: higher age, troponin, ST
   * depression, pressure, creatinine, BMI, cholesterol and glucose, lower
   * ejection fraction and maximum heart rate.
   */
  predicate NoMilder(v1: Vitals, v2: Vitals)
  {
    && v1.age <= v2.age && v1.troponin <= v2.troponin && v1.ejectionFraction >= v2.ejectionFraction
    && v1.stDepression <= v2.stDepression && v1.bp <= v2.bp && v1.creatinine <= v2.creatinine
    && v1.bmi <= v2.bmi && v1.cholesterol <= v2.cholesterol && v1.maxHr >= v2.maxHr
    && v1.glucose <= v2.glucose
  }

  /** Every component grows with the severity of its reading, so the raw score does too. */
  lemma RawRiskMonotone(v1: Vitals, v2: Vitals)
    requires NoMilder(v1, v2)
    ensures RawRisk(v1) <= RawRisk(v2)
  {
    assert AgePoints(v1.age) <= AgePoints(v2.age);
    assert TroponinPoints(v1.troponin) <= TroponinPoints(v2.troponin);
    assert EjectionFractionPoints(v1.ejectionFraction) <= EjectionFractionPoints(v2.ejectionFraction);
    assert StPoints(v1.stDepression) <= StPoints(v2.stDepression);
    assert BpPoints(v1.bp) <= BpPoints(v2.bp);
    assert CreatininePoints(v1.creatinine) <= CreatininePoints(v2.creatinine);
    assert BmiPoints(v1.bmi) <= BmiPoints(v2.bmi);
    assert CholesterolPoints(v1.cholesterol) <= CholesterolPoints(v2.cholesterol);
    assert MaxHrPoints(v1.maxHr) <= MaxHrPoints(v2.maxHr);
    assert GlucosePoints(v1.glucose) <= GlucosePoints(v2.glucose);
  }

  /** Worse readings never give a lower cardiac score, nor a lower category band. */
  lemma RiskScoreMonotone(v1: Vitals, v2: Vitals)
    requires NoMilder(v1, v2)
    ensures CalculateRiskScore(v1).riskScore <= CalculateRiskScore(v2).riskScore
    ensures CalculateRiskScore(v1).riskCategory == "Critical" ==> CalculateRiskScore(v2).riskCategory == "Critical"
    ensures CalculateRiskScore(v2).riskCategory == "Low" ==> CalculateRiskScore(v1).riskCategory == "Low"
  {
    RawRiskMonotone(v1, v2);
  }

  /** Picks one of four values by the 85 / 60 / 30 bands, testing the highest band first. */
  function ByBand<T>(score: real, critical: T, high: T, moderate: T, low: T): T
  {
    if score >= 85.0 then critical
    else if score >= 60.0 then high
    else if score >= 30.0 then moderate
    else low
  }

  /** With four different values, two scores pick the same one exactly when they share a category. */
  lemma ByBandFollowsCategory<T>(s1: real, s2: real, critical: T, high: T, moderate: T, low: T)
    requires critical != high && critical != moderate && critical != low
    requires high != moderate && high != low && moderate != low
    ensures ByBand(s1, critical, high, moderate, low) == ByBand(s2, critical, high, moderate, low)
            <==> RiskCategory(s1) == RiskCategory(s2)
  {
  }

  const UrgentAdvice := "URGENT: Immediate cardiology consultation required. Consider emergency admission and comprehensive cardiac workup including angiography."
  const HighAdvice := "HIGH RISK: Schedule urgent cardiology appointment within 24-48 hours. Recommend stress test and echocardiogram."
  const ModerateAdvice := "MODERATE RISK: Cardiology follow-up recommended within 1-2 weeks. Lifestyle modifications and medication review advised."
  const LowAdvice := "LOW RISK: Routine monitoring suggested. Continue current management and follow-up in 3-6 months."

  /** `get_recommendation` ignores the factors and uses the same 85 / 60 / 30 bands. */
  function Recommendation(score: real, topFactors: seq<Factor>): string
  {
    ByBand(score, UrgentAdvice, HighAdvice, ModerateAdvice, LowAdvice)
  }

  /** Two scores get the same advice exactly when they have the same category, whatever the factors. */
  lemma RecommendationFollowsCategory(s1: real, f1: seq<Factor>, s2: real, f2: seq<Factor>)
    ensures Recommendation(s1, f1) == Recommendation(s2, f2) <==> RiskCategory(s1) == RiskCategory(s2)
  {
    assert |UrgentAdvice| == 136 && |HighAdvice| == 111 && |ModerateAdvice| == 120 && |LowAdvice| == 96;
    ByBandFollowsCategory(s1, s2, UrgentAdvice, HighAdvice, ModerateAdvice, LowAdvice);
  }
}
