/**
 * The rule-based fallback of the DeepSeek predictor and the defaulting of
 * the fields of its parsed answer (backend/services/deepseek_predictor.py).
 *
 * Patient fields are read with `data.get(key, default)`: a missing key gives
 * the default. The HTTP call, `json.loads` and the timestamp are not
 * modelled; the parsed answer is an input whose fields may be absent.
 */
module DeepSeek {
  import opened Wrappers
  import opened Text
  import opened PatientData
  import opened Stats

  /** The outcome of one check: points added and the factor name appended, if any. */
  datatype Check = Check(points: nat, factor: Option<string>)

  /** The name a check appends: none, or its factor. */
  function NameOf(c: Check): seq<string>
  {
    if c.factor.Some? then [c.factor.value] else []
  }

  /** The factor names the checks append, in order. */
  function Names(checks: seq<Check>): (r: seq<string>)
    ensures |r| <= |checks|
  {
    if checks == [] then [] else NameOf(checks[0]) + Names(checks[1..])
  }

  ghost function Fired(checks: seq<Check>): set<string>
  {
    set i | 0 <= i < |checks| && checks[i].factor.Some? :: checks[i].factor.value
  }

  /** Every listed name is the factor of a check that fired, and every fired factor is listed. */
  lemma {:induction false} NamesAreFired(checks: seq<Check>)
    ensures forall x :: x in Names(checks) <==> x in Fired(checks)
  {
    if checks != [] {
      NamesAreFired(checks[1..]);
      forall x ensures x in Fired(checks) <==> x in NameOf(checks[0]) || x in Fired(checks[1..]) {
        if x in Fired(checks) {
          var i :| 0 <= i < |checks| && checks[i].factor.Some? && checks[i].factor.value == x;
          if i > 0 {
            assert checks[1..][i - 1] == checks[i];
          }
        }
        if x in Fired(checks[1..]) {
          var i :| 0 <= i < |checks[1..]| && checks[1..][i].factor.Some? && checks[1..][i].factor.value == x;
          assert checks[i + 1] == checks[1..][i];
        }
      }
    }
  }

  function AgeCheck(age: real): (c: Check)
    ensures c.points in {0, 15, 25}
    ensures c.points > 0 <==> c.factor.Some?
  {
    if age > 65.0 then Check(25, Some("Advanced age"))
    else if age > 55.0 then Check(15, Some("Age"))
    else Check(0, None)
  }

  function BpCheck(bp: real): (c: Check)
    ensures c.points in {0, 12, 20}
    ensures c.points > 0 <==> c.factor.Some?
  {
    if bp > 160.0 then Check(20, Some("Severe hypertension"))
    else if bp > 140.0 then Check(12, Some("Hypertension"))
    else Check(0, None)
  }

  /** Borderline cholesterol (above 200, at most 240) adds 8 points but no factor name. */
  function CholesterolCheck(cholesterol: real): (c: Check)
    ensures c.points in {0, 8, 15}
    ensures c.factor.Some? <==> cholesterol > 240.0
    ensures c.points == 8 <==> 200.0 < cholesterol <= 240.0
  {
    if cholesterol > 240.0 then Check(15, Some("High cholesterol"))
    else if cholesterol > 200.0 then Check(8, None)
    else Check(0, None)
  }

  function GlucoseCheck(glucose: real): (c: Check)
    ensures c.points in {0, 8, 15}
    ensures c.points > 0 <==> c.factor.Some?
  {
    if glucose > 160.0 then Check(15, Some("Diabetes"))
    else if glucose > 125.0 then Check(8, Some("Prediabetes"))
    else Check(0, None)
  }

  function TroponinCheck(troponin: real): (c: Check)
    ensures c.points in {0, 20}
    ensures c.points > 0 <==> c.factor.Some?
  {
    if troponin > 0.5 then Check(20, Some("Elevated troponin")) else Check(0, None)
  }

  /** A mildly reduced ejection fraction (40 to under 50) adds 10 points but no factor name. */
  function EjectionFractionCheck(ef: real): (c: Check)
    ensures c.points in {0, 10, 20}
    ensures c.factor.Some? <==> ef < 40.0
    ensures c.points == 10 <==> 40.0 <= ef < 50.0
  {
    if ef < 40.0 then Check(20, Some("Reduced ejection fraction"))
    else if ef < 50.0 then Check(10, None)
    else Check(0, None)
  }

  /** The six checks, in the order they run; a missing ejection fraction reads as 60. */
  function Checks(data: Patient): (r: seq<Check>)
    ensures |r| == 6
  {
    [ AgeCheck(Get(data, "age", 0.0)), BpCheck(Get(data, "bp", 0.0)),
      CholesterolCheck(Get(data, "cholesterol", 0.0)), GlucoseCheck(Get(data, "glucose", 0.0)),
      TroponinCheck(Get(data, "troponin", 0.0)), EjectionFractionCheck(Get(data, "ejectionFraction", 60.0)) ]
  }

  /** The points of the six checks, summed as `risk_score` accumulates them. */
  function RawScore(data: Patient): nat
  {
    var c := Checks(data);
    c[0].points + c[1].points + c[2].points + c[3].points + c[4].points + c[5].points
  }

  /** The six checks can add up to 115, which is why the cap matters. */
  lemma RawScoreAtMost115(data: Patient)
    ensures RawScore(data) <= 115
    ensures RawScore(map["age" := 70.0, "bp" := 170.0, "cholesterol" := 250.0, "glucose" := 170.0,
                         "troponin" := 1.0, "ejectionFraction" := 30.0]) == 115
  {
  }

  function Category(score: int): (c: string)
    ensures c == "Low" <==> score < 30
    ensures c == "Moderate" <==> 30 <= score < 60
    ensures c == "High" <==> 60 <= score < 80
    ensures c == "Critical" <==> score >= 80
  {
    if score < 30 then "Low"
    else if score < 60 then "Moderate"
    else if score < 80 then "High"
    else "Critical"
  }

  function DefaultFactors(): seq<string>
  {
    ["Age", "Blood Pressure", "Cholesterol"]
  }

  /** `factors[:3] if factors else [...]`. */
  function TopFactors(factors: seq<string>): (r: seq<string>)
    ensures factors == [] ==> r == DefaultFactors()
    ensures factors != [] ==> 1 <= |r| <= 3 && |r| <= |factors| && r == factors[..|r|]
    ensures |factors| >= 3 ==> |r| == 3
  {
    if factors != [] then (if |factors| <= 3 then factors else factors[..3]) else DefaultFactors()
  }

  function Recommendation(category: string): string
  {
    "Based on " + Lower(category)
    + " risk assessment, consult with a cardiologist for comprehensive evaluation and treatment planning."
  }

  function MinR(a: real, b: real): real { if a <= b then a else b }

  datatype DiseaseRisks = DiseaseRisks(heartAttack: real, stroke: real, heartFailure: real)

  datatype Prediction = Prediction(
    riskScore: int,
    riskCategory: string,
    topFactors: seq<string>,
    recommendation: string,
    multiDiseaseRisks: DiseaseRisks,
    predictionMethod: string)

  /**
   * `fallback_prediction`: the points of the six checks capped at 100, the
   * 30/60/80 category, the first three factor names (or the defaults), the
   * recommendation naming that category, and
   * the three disease risks as fixed fractions of the score. Because the
   * score is at most 100, the `min(..., 100)` on the disease risks never binds.
   */
  function FallbackPrediction(data: Patient): (p: Prediction)
    ensures 0 <= p.riskScore <= 100
    ensures p.riskScore == if RawScore(data) <= 100 then RawScore(data) else 100
    ensures p.riskCategory == Category(p.riskScore)
    ensures p.topFactors == TopFactors(Names(Checks(data)))
    ensures p.recommendation == Recommendation(p.riskCategory)
    ensures p.multiDiseaseRisks == DiseaseRisks(p.riskScore as real * 0.85, p.riskScore as real * 0.65,
                                                p.riskScore as real * 0.75)
    ensures p.predictionMethod == "Rule-based (Fallback)"
  {
    var raw := RawScore(data);
    var score := if raw <= 100 then raw else 100;
    var category := Category(score);
    Prediction(
      score, category, TopFactors(Names(Checks(data))), Recommendation(category),
      DiseaseRisks(MinR(score as real * 0.85, 100.0), MinR(score as real * 0.65, 100.0),
                   MinR(score as real * 0.75, 100.0)),
      "Rule-based (Fallback)")
  }

  /** A patient with no fields scores 0, is Low, and gets the default factors. */
  lemma EmptyPatient()
    ensures FallbackPrediction(map[]).riskScore == 0
    ensures FallbackPrediction(map[]).riskCategory == "Low"
    ensures FallbackPrediction(map[]).topFactors == DefaultFactors()
  {
    var c := Checks(map[]);
    assert c == [Check(0, None), Check(0, None), Check(0, None), Check(0, None), Check(0, None), Check(0, None)];
    assert Names(c) == [] by {
      assert c[1..][1..][1..][1..][1..][1..] == [];
    }
  }

  /** The parsed answer of the model; any key may be missing. */
  datatype Answer = Answer(
    riskScore: Option<real>,
    riskCategory: Option<string>,
    topFactors: Option<seq<string>>,
    recommendation: Option<string>,
    multiDiseaseRisks: Option<DiseaseRisks>)

  function OrElse<T>(v: Option<T>, default: T): T
  {
    if v.Some? then v.value else default
  }

  /**
   * The defaulting in `parse_deepseek_response`: every field the model
   * supplied is passed through (the score truncated by `int`), and each
   * missing one takes its default.
   */
  function ParseResponse(answer: Answer): (p: Prediction)
    ensures answer.riskScore.None? ==> p.riskScore == 50
    ensures answer.riskScore.Some? ==> p.riskScore == Truncate(answer.riskScore.value)
    ensures answer.riskCategory.None? ==> p.riskCategory == "Moderate"
    ensures answer.riskCategory.Some? ==> p.riskCategory == answer.riskCategory.value
    ensures answer.topFactors.None? ==> p.topFactors == DefaultFactors()
    ensures answer.topFactors.Some? ==> p.topFactors == answer.topFactors.value
    ensures answer.recommendation.None? ==> p.recommendation == "Consult with a cardiologist for detailed evaluation"
    ensures answer.recommendation.Some? ==> p.recommendation == answer.recommendation.value
    ensures answer.multiDiseaseRisks.None? ==> p.multiDiseaseRisks == DiseaseRisks(50.0, 40.0, 45.0)
    ensures answer.multiDiseaseRisks.Some? ==> p.multiDiseaseRisks == answer.multiDiseaseRisks.value
    ensures p.predictionMethod == "DeepSeek AI"
  {
    Prediction(
      Truncate(OrElse(answer.riskScore, 50.0)),
      OrElse(answer.riskCategory, "Moderate"),
      OrElse(answer.topFactors, DefaultFactors()),
      OrElse(answer.recommendation, "Consult with a cardiologist for detailed evaluation"),
      OrElse(answer.multiDiseaseRisks, DiseaseRisks(50.0, 40.0, 45.0)),
      "DeepSeek AI")
  }
}
