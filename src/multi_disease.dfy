/**
 * Point-based risk calculators for diabetes, chronic kidney disease, liver
 * disease and hypertension (backend/utils/multi_disease.py).
 *
 * A patient is a map from field name to number; a field that is absent stands
 * for both a missing key and a `None` value. Every field is read as
 * `data.get(k) or default`, so a falsy value (missing, None or 0) becomes the
 * default. Each tiered parameter is an if/elif chain and yields at most one
 * factor; the score is the sum of the points of the factors, capped at 100.
 */
module MultiDisease {
  import opened Factors

  type Patient = map<string, real>

  datatype DiseaseRisk = DiseaseRisk(
    riskScore: real,
    riskCategory: string,
    topFactors: seq<Factor>,
    recommendation: string)

  /** `data.get(key) or default`. */
  function Or(data: Patient, key: string, default: real): (v: real)
    ensures key in data && data[key] != 0.0 ==> v == data[key]
    ensures (key !in data || data[key] == 0.0) ==> v == default
  {
    if key in data && data[key] != 0.0 then data[key] else default
  }

  function Cap(score: real): real { if score <= 100.0 then score else 100.0 }

  /** Picks one of four values by the 75 / 50 / 25 bands shared by all four calculators. */
  function Banded<T>(score: real, critical: T, high: T, moderate: T, low: T): T
  {
    if score >= 75.0 then critical
    else if score >= 50.0 then high
    else if score >= 25.0 then moderate
    else low
  }

  /** The category of a score. */
  function RiskCategory(score: real): (c: string)
    ensures c == "Critical" <==> score >= 75.0
    ensures c == "High" <==> 50.0 <= score < 75.0
    ensures c == "Moderate" <==> 25.0 <= score < 50.0
    ensures c == "Low" <==> score < 25.0
  {
    Banded(score, "Critical", "High", "Moderate", "Low")
  }

  /** With four different values, two scores pick the same value exactly when they share a band. */
  lemma BandedFollowsBand<T>(s1: real, s2: real, critical: T, high: T, moderate: T, low: T)
    requires critical != high && critical != moderate && critical != low
    requires high != moderate && high != low && moderate != low
    ensures Banded(s1, critical, high, moderate, low) == Banded(s2, critical, high, moderate, low)
            <==> RiskCategory(s1) == RiskCategory(s2)
  {
  }

  predicate NonNegative(factors: seq<Factor>)
  {
    forall i :: 0 <= i < |factors| ==> factors[i].points >= 0.0
  }

  /** A tier chain yields no factor or one factor with non-negative points, at most `max`. */
  predicate Tier(r: seq<Factor>, max: real)
  {
    max >= 0.0 && |r| <= 1 && (|r| == 1 ==> 0.0 <= r[0].points <= max)
  }

  lemma TierSum(r: seq<Factor>, max: real)
    requires Tier(r, max)
    ensures 0.0 <= SumPoints(r) <= max
  {
    if |r| == 1 {
      assert r[1..] == [];
      assert SumPoints(r) == r[0].points + SumPoints([]);
    } else {
      assert r == [];
    }
  }

  /** Builds the result the way every calculator does: cap, category, top three, recommendation. */
  function Assess(factors: seq<Factor>, recommendation: string): DiseaseRisk
  {
    var score := Cap(SumPoints(factors));
    DiseaseRisk(score, RiskCategory(score), TopThree(factors), recommendation)
  }

  // ---------- diabetes ----------

  function GlucoseTier(glucose: real): (r: seq<Factor>)
    ensures Tier(r, 40.0)
  {
    if glucose >= 126.0 then [Factor("High Glucose", 40.0, "Critical")]
    else if glucose >= 100.0 then [Factor("Elevated Glucose", 25.0, "High")]
    else if glucose >= 90.0 then [Factor("Borderline Glucose", 10.0, "Moderate")]
    else []
  }

  function Hba1cTier(hba1c: real): (r: seq<Factor>)
    ensures Tier(r, 30.0)
  {
    if hba1c >= 6.5 then [Factor("High HbA1c", 30.0, "Critical")]
    else if hba1c >= 5.7 then [Factor("Prediabetic HbA1c", 15.0, "High")]
    else []
  }

  function DiabetesBmiTier(bmi: real): (r: seq<Factor>)
    ensures Tier(r, 20.0)
  {
    if bmi >= 30.0 then [Factor("Obesity", 20.0, "High")]
    else if bmi >= 25.0 then [Factor("Overweight", 10.0, "Moderate")]
    else []
  }

  /** `min(10, (age - 45) // 5)` points from 45 on, the factor kept even at 0 points. */
  function DiabetesAgeTier(age: real): (r: seq<Factor>)
    ensures Tier(r, 10.0)
    ensures |r| == 1 <==> age >= 45.0
    ensures age >= 45.0 ==> r[0].points == Min(10, ((age - 45.0) / 5.0).Floor) as real
  {
    if age >= 45.0 then [Factor("Age Factor", Min(10, ((age - 45.0) / 5.0).Floor) as real, "Moderate")]
    else []
  }

  function DiabetesFactors(data: Patient): seq<Factor>
  {
    GlucoseTier(Or(data, "glucose", 0.0)) + Hba1cTier(Or(data, "hba1c", 0.0))
    + DiabetesBmiTier(Or(data, "bmi", 0.0)) + DiabetesAgeTier(Or(data, "age", 0.0))
  }

  function DiabetesRecommendation(score: real): string
  {
    Banded(score,
      "Immediate endocrinologist consultation required. Start insulin therapy evaluation.",
      "Schedule diabetes screening. Consider oral hypoglycemic agents. Lifestyle modifications essential.",
      "Monitor blood glucose regularly. Implement diet and exercise program. Annual screening recommended.",
      "Maintain healthy lifestyle. Regular physical activity and balanced diet recommended.")
  }

  /**
   * The score is the plain sum of the points of the factors found (at most 100,
   * so the cap never binds), its category and recommendation follow the
   * 75/50/25 bands, and the top factors are the three best of those found.
   */
  function CalculateDiabetesRisk(data: Patient): (r: DiseaseRisk)
    ensures 0.0 <= r.riskScore <= 100.0
    ensures r.riskScore == SumPoints(DiabetesFactors(data))
    ensures r.riskCategory == RiskCategory(r.riskScore)
    ensures r.recommendation == DiabetesRecommendation(r.riskScore)
    ensures r.topFactors == TopThree(DiabetesFactors(data))
  {
    var g, h, b, a := GlucoseTier(Or(data, "glucose", 0.0)), Hba1cTier(Or(data, "hba1c", 0.0)),
      DiabetesBmiTier(Or(data, "bmi", 0.0)), DiabetesAgeTier(Or(data, "age", 0.0));
    SumOfFour(g, h, b, a, 40.0, 30.0, 20.0, 10.0);
    var factors := DiabetesFactors(data);
    Assess(factors, DiabetesRecommendation(Cap(SumPoints(factors))))
  }

  lemma SumOfFour(a: seq<Factor>, b: seq<Factor>, c: seq<Factor>, d: seq<Factor>,
                  ma: real, mb: real, mc: real, md: real)
    requires Tier(a, ma) && Tier(b, mb) && Tier(c, mc) && Tier(d, md)
    ensures 0.0 <= SumPoints(a + b + c + d) <= ma + mb + mc + md
  {
    TierSum(a, ma); TierSum(b, mb); TierSum(c, mc); TierSum(d, md);
    SumPointsAppend(a, b);
    SumPointsAppend(a + b, c);
    SumPointsAppend(a + b + c, d);
  }

  // ---------- kidney ----------

  function CreatinineTier(creatinine: real): (r: seq<Factor>)
    ensures Tier(r, 35.0)
  {
    if creatinine >= 2.0 then [Factor("High Creatinine", 35.0, "Critical")]
    else if creatinine >= 1.5 then [Factor("Elevated Creatinine", 20.0, "High")]
    else if creatinine >= 1.2 then [Factor("Borderline Creatinine", 10.0, "Moderate")]
    else []
  }

  function GfrTier(gfr: real): (r: seq<Factor>)
    ensures Tier(r, 35.0)
  {
    if gfr < 30.0 then [Factor("Severe GFR Reduction", 35.0, "Critical")]
    else if gfr < 60.0 then [Factor("Moderate GFR Reduction", 25.0, "High")]
    else if gfr < 90.0 then [Factor("Mild GFR Reduction", 10.0, "Moderate")]
    else []
  }

  function ProteinTier(protein: real): (r: seq<Factor>)
    ensures Tier(r, 20.0)
  {
    if protein >= 300.0 then [Factor("High Proteinuria", 20.0, "High")]
    else if protein >= 30.0 then [Factor("Microalbuminuria", 10.0, "Moderate")]
    else []
  }

  function KidneyBpTier(bp: real): (r: seq<Factor>)
    ensures Tier(r, 10.0)
  {
    if bp >= 140.0 then [Factor("Hypertension", 10.0, "High")] else []
  }

  function KidneyFactors(data: Patient): seq<Factor>
  {
    CreatinineTier(Or(data, "creatinine", 0.0)) + GfrTier(Or(data, "gfr", 100.0))
    + ProteinTier(Or(data, "protein_urine", 0.0)) + KidneyBpTier(Or(data, "bp", 0.0))
  }

  function KidneyRecommendation(score: real): string
  {
    Banded(score,
      "Urgent nephrologist referral. Consider dialysis evaluation. Strict fluid and electrolyte management.",
      "Nephrology consultation recommended. Monitor kidney function closely. Adjust medications for renal function.",
      "Regular kidney function monitoring. Control blood pressure strictly. Avoid nephrotoxic medications.",
      "Maintain adequate hydration. Regular check-ups. Healthy diet with moderate protein intake.")
  }

  function CalculateKidneyRisk(data: Patient): (r: DiseaseRisk)
    ensures 0.0 <= r.riskScore <= 100.0
    ensures r.riskScore == SumPoints(KidneyFactors(data))
    ensures r.riskCategory == RiskCategory(r.riskScore)
    ensures r.recommendation == KidneyRecommendation(r.riskScore)
    ensures r.topFactors == TopThree(KidneyFactors(data))
  {
    SumOfFour(CreatinineTier(Or(data, "creatinine", 0.0)), GfrTier(Or(data, "gfr", 100.0)),
      ProteinTier(Or(data, "protein_urine", 0.0)), KidneyBpTier(Or(data, "bp", 0.0)),
      35.0, 35.0, 20.0, 10.0);
    var factors := KidneyFactors(data);
    Assess(factors, KidneyRecommendation(Cap(SumPoints(factors))))
  }

  // ---------- liver ----------

  function AltTier(alt: real): (r: seq<Factor>)
    ensures Tier(r, 25.0)
  {
    if alt >= 100.0 then [Factor("High ALT", 25.0, "Critical")]
    else if alt >= 50.0 then [Factor("Elevated ALT", 15.0, "High")]
    else []
  }

  function AstTier(ast: real): (r: seq<Factor>)
    ensures Tier(r, 25.0)
  {
    if ast >= 100.0 then [Factor("High AST", 25.0, "Critical")]
    else if ast >= 50.0 then [Factor("Elevated AST", 15.0, "High")]
    else []
  }

  function BilirubinTier(bilirubin: real): (r: seq<Factor>)
    ensures Tier(r, 20.0)
  {
    if bilirubin >= 3.0 then [Factor("High Bilirubin", 20.0, "Critical")]
    else if bilirubin >= 1.5 then [Factor("Elevated Bilirubin", 10.0, "High")]
    else []
  }

  function AlbuminTier(albumin: real): (r: seq<Factor>)
    ensures Tier(r, 15.0)
  {
    if albumin < 3.0 then [Factor("Low Albumin", 15.0, "High")]
    else if albumin < 3.5 then [Factor("Borderline Albumin", 8.0, "Moderate")]
    else []
  }

  function PlateletTier(platelets: real): (r: seq<Factor>)
    ensures Tier(r, 15.0)
  {
    if platelets < 100.0 then [Factor("Low Platelets", 15.0, "High")]
    else if platelets < 150.0 then [Factor("Borderline Platelets", 8.0, "Moderate")]
    else []
  }

  function LiverFactors(data: Patient): seq<Factor>
  {
    AltTier(Or(data, "alt", 0.0)) + AstTier(Or(data, "ast", 0.0))
    + BilirubinTier(Or(data, "bilirubin", 0.0)) + AlbuminTier(Or(data, "albumin", 4.0))
    + PlateletTier(Or(data, "platelet_count", 250.0))
  }

  function LiverRecommendation(score: real): string
  {
    Banded(score,
      "Immediate hepatologist consultation. Liver biopsy may be needed. Avoid alcohol completely.",
      "Gastroenterology referral recommended. Liver function monitoring. Medication review essential.",
      "Monitor liver enzymes regularly. Limit alcohol intake. Healthy diet and weight management.",
      "Maintain liver health with balanced diet. Limit alcohol. Regular health check-ups.")
  }

  function CalculateLiverRisk(data: Patient): (r: DiseaseRisk)
    ensures 0.0 <= r.riskScore <= 100.0
    ensures r.riskScore == SumPoints(LiverFactors(data))
    ensures r.riskCategory == RiskCategory(r.riskScore)
    ensures r.recommendation == LiverRecommendation(r.riskScore)
    ensures r.topFactors == TopThree(LiverFactors(data))
  {
    LiverPointsBounded(data);
    var factors := LiverFactors(data);
    Assess(factors, LiverRecommendation(Cap(SumPoints(factors))))
  }

  /** The five liver maxima sum to exactly 100. */
  lemma LiverPointsBounded(data: Patient)
    ensures 0.0 <= SumPoints(LiverFactors(data)) <= 100.0
  {
    var a, s, b, al, p := AltTier(Or(data, "alt", 0.0)), AstTier(Or(data, "ast", 0.0)),
      BilirubinTier(Or(data, "bilirubin", 0.0)), AlbuminTier(Or(data, "albumin", 4.0)),
      PlateletTier(Or(data, "platelet_count", 250.0));
    SumOfFour(a, s, b, al, 25.0, 25.0, 20.0, 15.0);
    TierSum(p, 15.0);
    SumPointsAppend(a + s + b + al, p);
  }

  // ---------- hypertension ----------

  function SystolicTier(systolic: real): (r: seq<Factor>)
    ensures Tier(r, 40.0)
  {
    if systolic >= 180.0 then [Factor("Stage 3 Hypertension", 40.0, "Critical")]
    else if systolic >= 140.0 then [Factor("Stage 2 Hypertension", 30.0, "High")]
    else if systolic >= 130.0 then [Factor("Stage 1 Hypertension", 20.0, "High")]
    else if systolic >= 120.0 then [Factor("Elevated BP", 10.0, "Moderate")]
    else []
  }

  function DiastolicTier(diastolic: real): (r: seq<Factor>)
    ensures Tier(r, 30.0)
  {
    if diastolic >= 120.0 then [Factor("Critical Diastolic BP", 30.0, "Critical")]
    else if diastolic >= 90.0 then [Factor("High Diastolic BP", 20.0, "High")]
    else if diastolic >= 80.0 then [Factor("Elevated Diastolic BP", 10.0, "Moderate")]
    else []
  }

  function HypertensionBmiTier(bmi: real): (r: seq<Factor>)
    ensures Tier(r, 15.0)
  {
    if bmi >= 30.0 then [Factor("Obesity", 15.0, "High")]
    else if bmi >= 25.0 then [Factor("Overweight", 8.0, "Moderate")]
    else []
  }

  function HypertensionAgeTier(age: real): (r: seq<Factor>)
    ensures Tier(r, 15.0)
  {
    if age >= 65.0 then [Factor("Advanced Age", 15.0, "High")]
    else if age >= 45.0 then [Factor("Age Factor", 8.0, "Moderate")]
    else []
  }

  /** `data.get('systolic_bp') or data.get('bp') or 0`. */
  function Systolic(data: Patient): (s: real)
    ensures Or(data, "systolic_bp", 0.0) == 0.0 ==> s == Or(data, "bp", 0.0)
    ensures Or(data, "systolic_bp", 0.0) != 0.0 ==> s == data["systolic_bp"]
  {
    Or(data, "systolic_bp", Or(data, "bp", 0.0))
  }

  function HypertensionFactors(data: Patient): seq<Factor>
  {
    SystolicTier(Systolic(data)) + DiastolicTier(Or(data, "diastolic_bp", 0.0))
    + HypertensionBmiTier(Or(data, "bmi", 0.0)) + HypertensionAgeTier(Or(data, "age", 0.0))
  }

  function HypertensionRecommendation(score: real): string
  {
    Banded(score,
      "Emergency BP management required. Multiple antihypertensive medications likely needed. Daily monitoring essential.",
      "Start antihypertensive therapy. DASH diet implementation. Regular BP monitoring at home.",
      "Lifestyle modifications: reduce sodium, increase exercise. Monitor BP weekly. Consider medication if no improvement.",
      "Maintain healthy lifestyle. Regular exercise. Balanced diet with limited sodium.")
  }

  function CalculateHypertensionRisk(data: Patient): (r: DiseaseRisk)
    ensures 0.0 <= r.riskScore <= 100.0
    ensures r.riskScore == SumPoints(HypertensionFactors(data))
    ensures r.riskCategory == RiskCategory(r.riskScore)
    ensures r.recommendation == HypertensionRecommendation(r.riskScore)
    ensures r.topFactors == TopThree(HypertensionFactors(data))
  {
    SumOfFour(SystolicTier(Systolic(data)), DiastolicTier(Or(data, "diastolic_bp", 0.0)),
      HypertensionBmiTier(Or(data, "bmi", 0.0)), HypertensionAgeTier(Or(data, "age", 0.0)),
      40.0, 30.0, 15.0, 15.0);
    var factors := HypertensionFactors(data);
    Assess(factors, HypertensionRecommendation(Cap(SumPoints(factors))))
  }

  // ---------- properties ----------

  /**
   * Each recommendation text is fixed by the category band, and different bands
   * give different texts: two scores get the same advice exactly when they fall
   * in the same 75/50/25 band.
   */
  lemma DiabetesRecommendationFollowsBand(s1: real, s2: real)
    ensures DiabetesRecommendation(s1) == DiabetesRecommendation(s2) <==> RiskCategory(s1) == RiskCategory(s2)
  {
    var c, h, m, l := DiabetesRecommendation(80.0), DiabetesRecommendation(60.0), DiabetesRecommendation(30.0), DiabetesRecommendation(0.0);
    assert c != h && c != m && c != l && h != m && h != l && m != l;
    BandedFollowsBand(s1, s2, c, h, m, l);
  }

  lemma KidneyRecommendationFollowsBand(s1: real, s2: real)
    ensures KidneyRecommendation(s1) == KidneyRecommendation(s2) <==> RiskCategory(s1) == RiskCategory(s2)
  {
    var c, h, m, l := KidneyRecommendation(80.0), KidneyRecommendation(60.0), KidneyRecommendation(30.0), KidneyRecommendation(0.0);
    assert c != h && c != m && c != l && h != m && h != l && m != l;
    BandedFollowsBand(s1, s2, c, h, m, l);
  }

  lemma LiverRecommendationFollowsBand(s1: real, s2: real)
    ensures LiverRecommendation(s1) == LiverRecommendation(s2) <==> RiskCategory(s1) == RiskCategory(s2)
  {
    var c, h, m, l := LiverRecommendation(80.0), LiverRecommendation(60.0), LiverRecommendation(30.0), LiverRecommendation(0.0);
    assert c != h && c != m && c != l && h != m && h != l && m != l;
    BandedFollowsBand(s1, s2, c, h, m, l);
  }

  lemma HypertensionRecommendationFollowsBand(s1: real, s2: real)
    ensures HypertensionRecommendation(s1) == HypertensionRecommendation(s2) <==> RiskCategory(s1) == RiskCategory(s2)
  {
    var c, h, m, l := HypertensionRecommendation(80.0), HypertensionRecommendation(60.0), HypertensionRecommendation(30.0), HypertensionRecommendation(0.0);
    assert c != h && c != m && c != l && h != m && h != l && m != l;
    BandedFollowsBand(s1, s2, c, h, m, l);
  }

  /** With every field missing, the defaults (GFR 100, albumin 4.0, platelets 250, others 0) add no points. */
  lemma EmptyPatientScoresZero()
    ensures KidneyFactors(map[]) == []
    ensures LiverFactors(map[]) == []
    ensures DiabetesFactors(map[]) == []
    ensures HypertensionFactors(map[]) == []
  {
    assert forall k, d :: Or(map[], k, d) == d;
  }

  // ---------- monotonicity ----------

  /** The points of a tier chain: those of its factor, or 0 without one. */
  lemma TierPoints(r: seq<Factor>, max: real)
    requires Tier(r, max)
    ensures SumPoints(r) == if r == [] then 0.0 else r[0].points
  {
    if r != [] {
      assert r[1..] == [];
    }
  }

  /** The score of four concatenated tier chains is the sum of their points. */
  lemma SumOfParts(a: seq<Factor>, b: seq<Factor>, c: seq<Factor>, d: seq<Factor>)
    ensures SumPoints(a + b + c + d) == SumPoints(a) + SumPoints(b) + SumPoints(c) + SumPoints(d)
  {
    SumPointsAppend(a, b);
    SumPointsAppend(a + b, c);
    SumPointsAppend(a + b + c, d);
  }

  /** The diabetes tiers' points grow with each of their readings. */
  lemma DiabetesTiersMonotone(g1: real, h1: real, b1: real, a1: real, g2: real, h2: real, b2: real, a2: real)
    requires g1 <= g2 && h1 <= h2 && b1 <= b2 && a1 <= a2
    ensures SumPoints(GlucoseTier(g1) + Hba1cTier(h1) + DiabetesBmiTier(b1) + DiabetesAgeTier(a1))
            <= SumPoints(GlucoseTier(g2) + Hba1cTier(h2) + DiabetesBmiTier(b2) + DiabetesAgeTier(a2))
  {
    assert SumPoints(GlucoseTier(g1)) <= SumPoints(GlucoseTier(g2)) by {
      TierPoints(GlucoseTier(g1), 40.0); TierPoints(GlucoseTier(g2), 40.0);
    }
    assert SumPoints(Hba1cTier(h1)) <= SumPoints(Hba1cTier(h2)) by {
      TierPoints(Hba1cTier(h1), 30.0); TierPoints(Hba1cTier(h2), 30.0);
    }
    assert SumPoints(DiabetesBmiTier(b1)) <= SumPoints(DiabetesBmiTier(b2)) by {
      TierPoints(DiabetesBmiTier(b1), 20.0); TierPoints(DiabetesBmiTier(b2), 20.0);
    }
    assert SumPoints(DiabetesAgeTier(a1)) <= SumPoints(DiabetesAgeTier(a2)) by {
      TierPoints(DiabetesAgeTier(a1), 10.0); TierPoints(DiabetesAgeTier(a2), 10.0);
      if a1 >= 45.0 {
        assert (a1 - 45.0) / 5.0 <= (a2 - 45.0) / 5.0;
      }
    }
    SumOfParts(GlucoseTier(g1), Hba1cTier(h1), DiabetesBmiTier(b1), DiabetesAgeTier(a1));
    SumOfParts(GlucoseTier(g2), Hba1cTier(h2), DiabetesBmiTier(b2), DiabetesAgeTier(a2));
  }

  /**
   * A worse reading never lowers the diabetes score: with glucose, HbA1c,
   * BMI and age (as read) at least as high, the score is at least as high.
   */
  lemma DiabetesScoreMonotone(d1: Patient, d2: Patient)
    requires Or(d1, "glucose", 0.0) <= Or(d2, "glucose", 0.0)
    requires Or(d1, "hba1c", 0.0) <= Or(d2, "hba1c", 0.0)
    requires Or(d1, "bmi", 0.0) <= Or(d2, "bmi", 0.0)
    requires Or(d1, "age", 0.0) <= Or(d2, "age", 0.0)
    ensures CalculateDiabetesRisk(d1).riskScore <= CalculateDiabetesRisk(d2).riskScore
  {
    DiabetesTiersMonotone(Or(d1, "glucose", 0.0), Or(d1, "hba1c", 0.0), Or(d1, "bmi", 0.0), Or(d1, "age", 0.0),
                          Or(d2, "glucose", 0.0), Or(d2, "hba1c", 0.0), Or(d2, "bmi", 0.0), Or(d2, "age", 0.0));
  }

  /** The kidney tiers' points grow with creatinine, protein and pressure and fall with GFR. */
  lemma KidneyTiersMonotone(c1: real, g1: real, p1: real, b1: real, c2: real, g2: real, p2: real, b2: real)
    requires c1 <= c2 && g1 >= g2 && p1 <= p2 && b1 <= b2
    ensures SumPoints(CreatinineTier(c1) + GfrTier(g1) + ProteinTier(p1) + KidneyBpTier(b1))
            <= SumPoints(CreatinineTier(c2) + GfrTier(g2) + ProteinTier(p2) + KidneyBpTier(b2))
  {
    assert SumPoints(CreatinineTier(c1)) <= SumPoints(CreatinineTier(c2)) by {
      TierPoints(CreatinineTier(c1), 35.0); TierPoints(CreatinineTier(c2), 35.0);
    }
    assert SumPoints(GfrTier(g1)) <= SumPoints(GfrTier(g2)) by {
      TierPoints(GfrTier(g1), 35.0); TierPoints(GfrTier(g2), 35.0);
    }
    assert SumPoints(ProteinTier(p1)) <= SumPoints(ProteinTier(p2)) by {
      TierPoints(ProteinTier(p1), 20.0); TierPoints(ProteinTier(p2), 20.0);
    }
    assert SumPoints(KidneyBpTier(b1)) <= SumPoints(KidneyBpTier(b2)) by {
      TierPoints(KidneyBpTier(b1), 10.0); TierPoints(KidneyBpTier(b2), 10.0);
    }
    SumOfParts(CreatinineTier(c1), GfrTier(g1), ProteinTier(p1), KidneyBpTier(b1));
    SumOfParts(CreatinineTier(c2), GfrTier(g2), ProteinTier(p2), KidneyBpTier(b2));
  }

  /**
   * A worse reading never lowers the kidney score: creatinine, protein and
   * blood pressure at least as high and GFR at most as high.
   */
  lemma KidneyScoreMonotone(d1: Patient, d2: Patient)
    requires Or(d1, "creatinine", 0.0) <= Or(d2, "creatinine", 0.0)
    requires Or(d1, "gfr", 100.0) >= Or(d2, "gfr", 100.0)
    requires Or(d1, "protein_urine", 0.0) <= Or(d2, "protein_urine", 0.0)
    requires Or(d1, "bp", 0.0) <= Or(d2, "bp", 0.0)
    ensures CalculateKidneyRisk(d1).riskScore <= CalculateKidneyRisk(d2).riskScore
  {
    KidneyTiersMonotone(Or(d1, "creatinine", 0.0), Or(d1, "gfr", 100.0), Or(d1, "protein_urine", 0.0), Or(d1, "bp", 0.0),
                        Or(d2, "creatinine", 0.0), Or(d2, "gfr", 100.0), Or(d2, "protein_urine", 0.0), Or(d2, "bp", 0.0));
  }

  /** The liver tiers' points grow with ALT, AST and bilirubin and fall with albumin and platelets. */
  lemma LiverTiersMonotone(l1: real, s1: real, b1: real, a1: real, p1: real,
                           l2: real, s2: real, b2: real, a2: real, p2: real)
    requires l1 <= l2 && s1 <= s2 && b1 <= b2 && a1 >= a2 && p1 >= p2
    ensures SumPoints(AltTier(l1) + AstTier(s1) + BilirubinTier(b1) + AlbuminTier(a1) + PlateletTier(p1))
            <= SumPoints(AltTier(l2) + AstTier(s2) + BilirubinTier(b2) + AlbuminTier(a2) + PlateletTier(p2))
  {
    assert SumPoints(AltTier(l1)) <= SumPoints(AltTier(l2)) by {
      TierPoints(AltTier(l1), 25.0); TierPoints(AltTier(l2), 25.0);
    }
    assert SumPoints(AstTier(s1)) <= SumPoints(AstTier(s2)) by {
      TierPoints(AstTier(s1), 25.0); TierPoints(AstTier(s2), 25.0);
    }
    assert SumPoints(BilirubinTier(b1)) <= SumPoints(BilirubinTier(b2)) by {
      TierPoints(BilirubinTier(b1), 20.0); TierPoints(BilirubinTier(b2), 20.0);
    }
    assert SumPoints(AlbuminTier(a1)) <= SumPoints(AlbuminTier(a2)) by {
      TierPoints(AlbuminTier(a1), 15.0); TierPoints(AlbuminTier(a2), 15.0);
    }
    assert SumPoints(PlateletTier(p1)) <= SumPoints(PlateletTier(p2)) by {
      TierPoints(PlateletTier(p1), 15.0); TierPoints(PlateletTier(p2), 15.0);
    }
    SumOfParts(AltTier(l1), AstTier(s1), BilirubinTier(b1), AlbuminTier(a1));
    SumOfParts(AltTier(l2), AstTier(s2), BilirubinTier(b2), AlbuminTier(a2));
    SumPointsAppend(AltTier(l1) + AstTier(s1) + BilirubinTier(b1) + AlbuminTier(a1), PlateletTier(p1));
    SumPointsAppend(AltTier(l2) + AstTier(s2) + BilirubinTier(b2) + AlbuminTier(a2), PlateletTier(p2));
  }

  /**
   * A worse reading never lowers the liver score: ALT, AST and bilirubin at
   * least as high, albumin and platelets at most as high.
   */
  lemma LiverScoreMonotone(d1: Patient, d2: Patient)
    requires Or(d1, "alt", 0.0) <= Or(d2, "alt", 0.0)
    requires Or(d1, "ast", 0.0) <= Or(d2, "ast", 0.0)
    requires Or(d1, "bilirubin", 0.0) <= Or(d2, "bilirubin", 0.0)
    requires Or(d1, "albumin", 4.0) >= Or(d2, "albumin", 4.0)
    requires Or(d1, "platelet_count", 250.0) >= Or(d2, "platelet_count", 250.0)
    ensures CalculateLiverRisk(d1).riskScore <= CalculateLiverRisk(d2).riskScore
  {
    LiverTiersMonotone(Or(d1, "alt", 0.0), Or(d1, "ast", 0.0), Or(d1, "bilirubin", 0.0),
                       Or(d1, "albumin", 4.0), Or(d1, "platelet_count", 250.0),
                       Or(d2, "alt", 0.0), Or(d2, "ast", 0.0), Or(d2, "bilirubin", 0.0),
                       Or(d2, "albumin", 4.0), Or(d2, "platelet_count", 250.0));
  }

  /** The hypertension tiers' points grow with each of their readings. */
  lemma HypertensionTiersMonotone(s1: real, t1: real, b1: real, a1: real, s2: real, t2: real, b2: real, a2: real)
    requires s1 <= s2 && t1 <= t2 && b1 <= b2 && a1 <= a2
    ensures SumPoints(SystolicTier(s1) + DiastolicTier(t1) + HypertensionBmiTier(b1) + HypertensionAgeTier(a1))
            <= SumPoints(SystolicTier(s2) + DiastolicTier(t2) + HypertensionBmiTier(b2) + HypertensionAgeTier(a2))
  {
    assert SumPoints(SystolicTier(s1)) <= SumPoints(SystolicTier(s2)) by {
      TierPoints(SystolicTier(s1), 40.0); TierPoints(SystolicTier(s2), 40.0);
    }
    assert SumPoints(DiastolicTier(t1)) <= SumPoints(DiastolicTier(t2)) by {
      TierPoints(DiastolicTier(t1), 30.0); TierPoints(DiastolicTier(t2), 30.0);
    }
    assert SumPoints(HypertensionBmiTier(b1)) <= SumPoints(HypertensionBmiTier(b2)) by {
      TierPoints(HypertensionBmiTier(b1), 15.0); TierPoints(HypertensionBmiTier(b2), 15.0);
    }
    assert SumPoints(HypertensionAgeTier(a1)) <= SumPoints(HypertensionAgeTier(a2)) by {
      TierPoints(HypertensionAgeTier(a1), 15.0); TierPoints(HypertensionAgeTier(a2), 15.0);
    }
    SumOfParts(SystolicTier(s1), DiastolicTier(t1), HypertensionBmiTier(b1), HypertensionAgeTier(a1));
    SumOfParts(SystolicTier(s2), DiastolicTier(t2), HypertensionBmiTier(b2), HypertensionAgeTier(a2));
  }

  /**
   * A worse reading never lowers the hypertension score: systolic (as
   * chosen), diastolic, BMI and age at least as high.
   */
  lemma HypertensionScoreMonotone(d1: Patient, d2: Patient)
    requires Systolic(d1) <= Systolic(d2)
    requires Or(d1, "diastolic_bp", 0.0) <= Or(d2, "diastolic_bp", 0.0)
    requires Or(d1, "bmi", 0.0) <= Or(d2, "bmi", 0.0)
    requires Or(d1, "age", 0.0) <= Or(d2, "age", 0.0)
    ensures CalculateHypertensionRisk(d1).riskScore <= CalculateHypertensionRisk(d2).riskScore
  {
    HypertensionTiersMonotone(Systolic(d1), Or(d1, "diastolic_bp", 0.0), Or(d1, "bmi", 0.0), Or(d1, "age", 0.0),
                              Systolic(d2), Or(d2, "diastolic_bp", 0.0), Or(d2, "bmi", 0.0), Or(d2, "age", 0.0));
  }
}
