/**
 * The rule-based helpers of the random-forest predictor
 * (backend/services/ml_model.py): the risk score built from the class
 * probabilities and bonus points, the top-three factor names, the
 * recommendation text, the four disease risks, and the labelling rule of the
 * synthetic training set.
 *
 * The classifier itself (training, `predict`, `predict_proba`, feature
 * importances) is not modelled: its probabilities and importances are inputs.
 * Optional screening fields count only when present and not `None`; an absent
 * key stands for both.
 */
module MLModel {
  import opened Sorting
  import opened PatientData
  import DeepSeek

  function MinR(a: real, b: real): real { if a <= b then a else b }

  /** `min(score + bonus, 100)`. */
  function AddCapped(score: real, bonus: real): real
  {
    MinR(score + bonus, 100.0)
  }

  /** `if condition: score = min(score + bonus, 100)`. */
  function AddCappedIf(condition: bool, score: real, bonus: real): real
  {
    if condition then AddCapped(score, bonus) else score
  }

  /** From at most 100, adding capped bonuses one after another caps their sum once. */
  lemma AddCappedCombine(score: real, a: real, b: real)
    requires score <= 100.0 && a >= 0.0 && b >= 0.0
    ensures AddCapped(AddCapped(score, a), b) == AddCapped(score, a + b)
  {
  }

  lemma AddCappedIfAsBonus(condition: bool, score: real, bonus: real)
    requires score <= 100.0 && bonus >= 0.0
    ensures AddCappedIf(condition, score, bonus) == AddCapped(score, if condition then bonus else 0.0)
  {
  }

  /** An optional screening field that is present and exceeds `threshold`. */
  predicate Above(data: Patient, key: string, threshold: real)
  {
    key in data && data[key] > threshold
  }

  /** An optional screening field that is present and below `threshold`. */
  predicate Below(data: Patient, key: string, threshold: real)
  {
    key in data && data[key] < threshold
  }

  // ---------------------------------------------------------------------
  // _calculate_risk_score
  // ---------------------------------------------------------------------

  /** What a classifier reports: three class probabilities that sum to 1. */
  predicate Probabilities(low: real, moderate: real, high: real)
  {
    0.0 <= low <= 1.0 && 0.0 <= moderate <= 1.0 && 0.0 <= high <= 1.0 && low + moderate + high == 1.0
  }

  /** The probabilities weighted by 16.5, 50 and 83.5. */
  function WeightedBase(low: real, moderate: real, high: real): real
  {
    low * 16.5 + moderate * 50.0 + high * 83.5
  }

  /** The bonus points for severe troponin, ejection fraction and age. */
  function Bonus(data: Patient): (b: real)
    ensures 0.0 <= b <= 25.0
  {
    (if Get(data, "troponin", 0.0) > 1.0 then 10.0 else 0.0)
    + (if Get(data, "ejectionFraction", 60.0) < 35.0 then 10.0 else 0.0)
    + (if Get(data, "age", 0.0) > 70.0 then 5.0 else 0.0)
  }

  /** `_calculate_risk_score`: the weighted base, then each bonus added and capped at 100 in turn. */
  function RiskScore(data: Patient, low: real, moderate: real, high: real): real
  {
    var score := WeightedBase(low, moderate, high);
    var score := AddCappedIf(Get(data, "troponin", 0.0) > 1.0, score, 10.0);
    var score := AddCappedIf(Get(data, "ejectionFraction", 60.0) < 35.0, score, 10.0);
    AddCappedIf(Get(data, "age", 0.0) > 70.0, score, 5.0)
  }

  /** Probabilities give a weighted base between 16.5 (all Low) and 83.5 (all High). */
  lemma WeightedBaseBounds(low: real, moderate: real, high: real)
    requires Probabilities(low, moderate, high)
    ensures 16.5 <= WeightedBase(low, moderate, high) <= 83.5
  {
    assert WeightedBase(low, moderate, high) == 16.5 + moderate * 33.5 + high * 67.0;
  }

  /** From a base of at most 100, the score is the base plus all bonuses, capped once at 100. */
  lemma RiskScoreIsCappedSum(data: Patient, low: real, moderate: real, high: real)
    requires WeightedBase(low, moderate, high) <= 100.0
    ensures RiskScore(data, low, moderate, high) == MinR(WeightedBase(low, moderate, high) + Bonus(data), 100.0)
  {
    var s0 := WeightedBase(low, moderate, high);
    var t := if Get(data, "troponin", 0.0) > 1.0 then 10.0 else 0.0;
    var e := if Get(data, "ejectionFraction", 60.0) < 35.0 then 10.0 else 0.0;
    var a := if Get(data, "age", 0.0) > 70.0 then 5.0 else 0.0;
    AddCappedIfAsBonus(Get(data, "troponin", 0.0) > 1.0, s0, 10.0);
    var s1 := AddCapped(s0, t);
    AddCappedIfAsBonus(Get(data, "ejectionFraction", 60.0) < 35.0, s1, 10.0);
    AddCappedCombine(s0, t, e);
    var s2 := AddCapped(s0, t + e);
    AddCappedIfAsBonus(Get(data, "age", 0.0) > 70.0, s2, 5.0);
    AddCappedCombine(s0, t + e, a);
  }

  /** With real probabilities the score lies in [16.5, 100] and never falls below the weighted base. */
  lemma RiskScoreBounds(data: Patient, low: real, moderate: real, high: real)
    requires Probabilities(low, moderate, high)
    ensures 16.5 <= WeightedBase(low, moderate, high) <= RiskScore(data, low, moderate, high) <= 100.0
  {
    WeightedBaseBounds(low, moderate, high);
    RiskScoreIsCappedSum(data, low, moderate, high);
  }

  // ---------------------------------------------------------------------
  // _get_top_factors
  // ---------------------------------------------------------------------

  /** A factor name and the weight it is ranked by. */
  datatype Weighted = Weighted(name: string, weight: real)

  /** A factor the source checks: whether its condition holds, and the factor it would append. */
  datatype Candidate = Candidate(fired: bool, factor: Weighted)

  /** The names of the checked factors, in check order. */
  const FactorNames: seq<string> := [
    "Advanced age", "Hypertension", "High cholesterol", "Diabetes/Prediabetes",
    "Elevated troponin", "Reduced ejection fraction", "ST depression", "Kidney impairment", "Obesity",
    "High HbA1c (Diabetes)", "Low GFR (Kidney disease)", "Proteinuria (Kidney damage)",
    "Elevated ALT (Liver stress)", "Elevated AST (Liver damage)", "High bilirubin (Liver dysfunction)",
    "Low albumin (Malnutrition)", "Low platelets (Bleeding risk)", "High systolic BP", "High diastolic BP"]

  /** The names used to pad the list to three. */
  const Generic: seq<string> := ["Age", "Blood Pressure", "Cholesterol"]

  lemma FactorNamesDistinct()
    ensures |FactorNames| == 19
    ensures forall i, j :: 0 <= i < j < |FactorNames| ==> FactorNames[i] != FactorNames[j]
    ensures forall i :: 0 <= i < |FactorNames| ==> FactorNames[i] !in Generic
    ensures Generic[0] != Generic[1] && Generic[0] != Generic[2] && Generic[1] != Generic[2]
  {
  }

  /**
   * The nineteen checks in source order. The nine on required fields weigh
   * `importances[k] * 100` for the field's feature index k; the ten optional
   * screening checks carry fixed weights.
   */
  function Candidates(data: Patient, importances: seq<real>): (r: seq<Candidate>)
    requires |importances| >= 10
    ensures |r| == |FactorNames|
    ensures forall i :: 0 <= i < |r| ==> r[i].factor.name == FactorNames[i]
  {
    var n := FactorNames;
    [ Candidate(Get(data, "age", 0.0) > 65.0, Weighted(n[0], importances[0] * 100.0)),
      Candidate(Get(data, "bp", 0.0) > 140.0, Weighted(n[1], importances[1] * 100.0)),
      Candidate(Get(data, "cholesterol", 0.0) > 200.0, Weighted(n[2], importances[2] * 100.0)),
      Candidate(Get(data, "glucose", 0.0) > 125.0, Weighted(n[3], importances[3] * 100.0)),
      Candidate(Get(data, "troponin", 0.0) > 0.1, Weighted(n[4], importances[6] * 100.0)),
      Candidate(Get(data, "ejectionFraction", 60.0) < 50.0, Weighted(n[5], importances[7] * 100.0)),
      Candidate(Get(data, "stDepression", 0.0) > 1.0, Weighted(n[6], importances[5] * 100.0)),
      Candidate(Get(data, "creatinine", 1.0) > 1.3, Weighted(n[7], importances[8] * 100.0)),
      Candidate(Get(data, "bmi", 25.0) > 30.0, Weighted(n[8], importances[9] * 100.0)),
      Candidate("hba1c" in data && data["hba1c"] >= 6.5, Weighted(n[9], 18.0)),
      Candidate(Below(data, "gfr", 60.0), Weighted(n[10], 15.0)),
      Candidate(Above(data, "protein_urine", 30.0), Weighted(n[11], 12.0)),
      Candidate(Above(data, "alt", 56.0), Weighted(n[12], 10.0)),
      Candidate(Above(data, "ast", 40.0), Weighted(n[13], 10.0)),
      Candidate(Above(data, "bilirubin", 1.2), Weighted(n[14], 8.0)),
      Candidate(Below(data, "albumin", 3.5), Weighted(n[15], 8.0)),
      Candidate(Below(data, "platelet_count", 150.0), Weighted(n[16], 8.0)),
      Candidate(Above(data, "systolic_bp", 140.0), Weighted(n[17], 12.0)),
      Candidate(Above(data, "diastolic_bp", 90.0), Weighted(n[18], 10.0)) ]
  }

  /** The factors appended: those whose condition holds, in check order. */
  function Fired(candidates: seq<Candidate>): (r: seq<Weighted>)
    ensures |r| <= |candidates|
    ensures forall w :: w in r ==> Candidate(true, w) in candidates
  {
    if candidates == [] then []
    else (if candidates[0].fired then [candidates[0].factor] else []) + Fired(candidates[1..])
  }

  /** A factor is appended exactly when its check fires. */
  lemma {:induction false} FiredExactly(candidates: seq<Candidate>)
    ensures forall w :: w in Fired(candidates) <==> Candidate(true, w) in candidates
  {
    if candidates != [] {
      FiredExactly(candidates[1..]);
      assert candidates == [candidates[0]] + candidates[1..];
    }
  }

  predicate NamesDistinct(ws: seq<Weighted>)
  {
    forall i, j :: 0 <= i < j < |ws| ==> ws[i].name != ws[j].name
  }

  lemma {:induction false} FiredNamesDistinct(candidates: seq<Candidate>)
    requires forall i, j :: 0 <= i < j < |candidates| ==> candidates[i].factor.name != candidates[j].factor.name
    ensures NamesDistinct(Fired(candidates))
  {
    if candidates != [] {
      var rest := candidates[1..];
      FiredNamesDistinct(rest);
      var head := if candidates[0].fired then [candidates[0].factor] else [];
      forall w | w in Fired(rest) ensures w.name != candidates[0].factor.name {
        var k :| 0 <= k < |rest| && rest[k] == Candidate(true, w);
        assert candidates[k + 1] == rest[k];
      }
    }
  }

  /** Reordering a list whose names are distinct keeps them distinct. */
  lemma NamesDistinctPermutation(a: seq<Weighted>, b: seq<Weighted>)
    requires NamesDistinct(a) && multiset(a) == multiset(b)
    ensures NamesDistinct(b)
  {
    DistinctMultiset(a);
    MultisetDistinct(b);
    forall i, j | 0 <= i < j < |b| ensures b[i].name != b[j].name {
      assert b[i] in multiset(a) && b[j] in multiset(a);
      var p :| 0 <= p < |a| && a[p] == b[i];
      var q :| 0 <= q < |a| && a[q] == b[j];
      assert p != q;
    }
  }

  /** Descending by weight. */
  function ByWeight(): (before: (Weighted, Weighted) -> bool)
    ensures TotalPreorder(before)
    ensures forall a, b :: before(a, b) <==> a.weight >= b.weight
  {
    (a: Weighted, b: Weighted) => a.weight >= b.weight
  }

  /** `factors.sort(key=lambda x: x[1], reverse=True)`: a stable sort by weight, descending. */
  function Ranked(data: Patient, importances: seq<real>): seq<Weighted>
    requires |importances| >= 10
  {
    Sort(Fired(Candidates(data, importances)), ByWeight())
  }

  /** The factors of weight exactly `w`. */
  function Weighing(w: real): Weighted -> bool
  {
    (f: Weighted) => f.weight == w
  }

  /** The sort is stable: fired factors of equal weight keep their check order. */
  lemma RankedKeepsTies(data: Patient, importances: seq<real>, w: real)
    requires |importances| >= 10
    ensures Filter(Ranked(data, importances), Weighing(w)) == Filter(Fired(Candidates(data, importances)), Weighing(w))
  {
    var f := Fired(Candidates(data, importances));
    var k := Weighted("", w);
    SortStable(f, ByWeight(), k);
    FilterSame(Sort(f, ByWeight()), Tied(ByWeight(), k), Weighing(w));
    FilterSame(f, Tied(ByWeight(), k), Weighing(w));
  }

  /**
   * The ranking holds exactly the fired factors, heaviest first, with
   * distinct names none of them generic (their tie order is `RankedKeepsTies`).
   */
  lemma RankedFacts(data: Patient, importances: seq<real>)
    requires |importances| >= 10
    ensures var r := Ranked(data, importances);
            && multiset(r) == multiset(Fired(Candidates(data, importances)))
            && (forall i, j :: 0 <= i < j < |r| ==> r[i].weight >= r[j].weight)
            && NamesDistinct(r)
            && (forall i :: 0 <= i < |r| ==> r[i].name in FactorNames && r[i].name !in Generic)
  {
    var c := Candidates(data, importances);
    var f := Fired(c);
    var r := Ranked(data, importances);
    SortSorted(f, ByWeight());
    FactorNamesDistinct();
    FiredNamesDistinct(c);
    NamesDistinctPermutation(f, r);
    forall i | 0 <= i < |r| ensures r[i].name in FactorNames && r[i].name !in Generic {
      assert r[i] in multiset(f);
      var k :| 0 <= k < |c| && c[k] == Candidate(true, r[i]);
    }
  }

  function NamesOf(ws: seq<Weighted>): (r: seq<string>)
    ensures |r| == |ws| && forall i :: 0 <= i < |ws| ==> r[i] == ws[i].name
  {
    seq(|ws|, i requires 0 <= i < |ws| => ws[i].name)
  }

  /**
   * The padding loop of `_get_top_factors`: while fewer than three names are
   * listed, each generic name not yet listed is appended.
   */
  method PadWithGeneric(named: seq<string>) returns (top: seq<string>)
    requires |named| <= 3
    requires forall i :: 0 <= i < |named| ==> named[i] !in Generic
    ensures top == named + Generic[..3 - |named|]
  {
    FactorNamesDistinct();
    top := named;
    if |top| < 3 {
      var generic := Generic;
      var i := 0;
      while i < |generic|
        invariant 0 <= i && |named| + i < 3
        invariant top == named + generic[..i]
      {
        assert generic[i] !in named;
        assert generic[i] !in generic[..i];
        if generic[i] !in top {
          top := top + [generic[i]];
        }
        if |top| >= 3 {
          break;
        }
        i := i + 1;
      }
    } else {
      assert Generic[..0] == [];
    }
  }

  /**
   * `_get_top_factors`: the names of the three heaviest fired factors, then,
   * while fewer than three, the generic names in order. The result is always
   * three different names.
   */
  method GetTopFactors(data: Patient, importances: seq<real>) returns (top: seq<string>)
    requires |importances| >= 10
    ensures |top| == 3
    ensures forall i, j :: 0 <= i < j < |top| ==> top[i] != top[j]
    ensures var ranked := Ranked(data, importances);
            var k := if |ranked| < 3 then |ranked| else 3;
            && top[..k] == NamesOf(ranked[..k])
            && top[k..] == Generic[..3 - k]
  {
    // the fired factors, sorted in place by weight
    var factors := Ranked(data, importances);
    RankedFacts(data, importances);
    top := TopNames(factors);
  }

  /** The names of the first three factors, padded with generic names up to three. */
  method TopNames(factors: seq<Weighted>) returns (top: seq<string>)
    requires NamesDistinct(factors)
    requires forall i :: 0 <= i < |factors| ==> factors[i].name !in Generic
    ensures |top| == 3
    ensures forall i, j :: 0 <= i < j < |top| ==> top[i] != top[j]
    ensures var k := if |factors| < 3 then |factors| else 3;
            && top[..k] == NamesOf(factors[..k])
            && top[k..] == Generic[..3 - k]
  {
    var k := if |factors| < 3 then |factors| else 3;
    var named := NamesOf(factors[..k]);
    top := PadWithGeneric(named);
    PaddedDistinct(factors, k, top);
  }

  /** Distinct factor names, none generic, padded with generic names, stay distinct. */
  lemma PaddedDistinct(factors: seq<Weighted>, k: nat, top: seq<string>)
    requires k <= 3 && k <= |factors| && NamesDistinct(factors)
    requires forall i :: 0 <= i < |factors| ==> factors[i].name !in Generic
    requires top == NamesOf(factors[..k]) + Generic[..3 - k]
    ensures |top| == 3 && top[..k] == NamesOf(factors[..k]) && top[k..] == Generic[..3 - k]
    ensures forall i, j :: 0 <= i < j < |top| ==> top[i] != top[j]
  {
    FactorNamesDistinct();
    forall i, j | 0 <= i < j < 3 ensures top[i] != top[j] {
      if j < k {
        assert top[i] == factors[i].name && top[j] == factors[j].name;
      } else if i < k {
        assert top[i] == factors[i].name && top[j] == Generic[j - k];
      } else {
        assert top[i] == Generic[i - k] && top[j] == Generic[j - k];
      }
    }
  }

  // ---------------------------------------------------------------------
  // _get_recommendation
  // ---------------------------------------------------------------------

  const LowAdvice := "Continue healthy lifestyle. Regular check-ups recommended. Maintain current health habits."
  const ModerateAdvice := "Consult cardiologist for evaluation. Lifestyle modifications and possible medication needed. Monitor risk factors closely."
  const HighAdvice := "Urgent cardiology consultation required. Comprehensive cardiac workup and treatment plan needed. Immediate medical attention recommended."

  /** `_get_recommendation`: the Low and Moderate texts for those categories, the High text for anything else. */
  function Recommendation(category: string): (r: string)
    ensures r == LowAdvice <==> category == "Low"
    ensures r == ModerateAdvice <==> category == "Moderate"
    ensures r == HighAdvice <==> category != "Low" && category != "Moderate"
  {
    assert |LowAdvice| == 90 && |ModerateAdvice| == 122 && |HighAdvice| == 137;
    if category == "Low" then LowAdvice
    else if category == "Moderate" then ModerateAdvice
    else HighAdvice
  }

  // ---------------------------------------------------------------------
  // _calculate_disease_risks
  // ---------------------------------------------------------------------

  datatype DiseaseRisks = DiseaseRisks(cardiac: real, liver: real, kidney: real, hypertension: real)

  /** The hypertension base from `bp`: 95, 85, 70, 50, 30 or 10 by the 180/160/140/130/120 tiers. */
  function HypertensionBase(bp: real): (r: real)
    ensures 10.0 <= r <= 95.0
  {
    if bp > 180.0 then 95.0
    else if bp > 160.0 then 85.0
    else if bp > 140.0 then 70.0
    else if bp > 130.0 then 50.0
    else if bp > 120.0 then 30.0
    else 10.0
  }

  /** A higher blood pressure never gives a lower hypertension base. */
  lemma HypertensionBaseMonotone(bp1: real, bp2: real)
    requires bp1 <= bp2
    ensures HypertensionBase(bp1) <= HypertensionBase(bp2)
  {
  }

  /** The points each disease risk adds to its start value. */
  function CardiacBonus(data: Patient): real
  {
    (if Get(data, "troponin", 0.0) > 0.5 then 15.0 else 0.0)
    + (if Get(data, "ejectionFraction", 60.0) < 40.0 then 15.0 else 0.0)
    + (if Get(data, "stDepression", 0.0) > 2.0 then 10.0 else 0.0)
  }

  function LiverBonus(data: Patient): real
  {
    (if Above(data, "alt", 56.0) then 25.0 else 0.0) + (if Above(data, "ast", 40.0) then 20.0 else 0.0)
    + (if Above(data, "bilirubin", 1.2) then 15.0 else 0.0) + (if Below(data, "albumin", 3.5) then 10.0 else 0.0)
  }

  function KidneyBonus(data: Patient): real
  {
    (if Get(data, "creatinine", 1.0) > 2.0 then 30.0 else if Get(data, "creatinine", 1.0) > 1.5 then 20.0 else 0.0)
    + (if Below(data, "gfr", 60.0) then 25.0 else 0.0) + (if Above(data, "protein_urine", 30.0) then 20.0 else 0.0)
  }

  function HypertensionBonus(data: Patient): real
  {
    (if Above(data, "systolic_bp", 140.0) then 15.0 else 0.0) + (if Above(data, "diastolic_bp", 90.0) then 10.0 else 0.0)
  }

  /** `_calculate_disease_risks`: four running risks, each bonus capped at 100, and each reported capped at 100. */
  function CalculateDiseaseRisks(data: Patient, baseRisk: real): (r: DiseaseRisks)
    ensures r.cardiac <= 100.0 && r.liver <= 100.0 && r.kidney <= 100.0
    ensures HypertensionBase(Get(data, "bp", 0.0)) <= r.hypertension <= 100.0
  {
    var cardiac := baseRisk * 0.85;
    var cardiac := AddCappedIf(Get(data, "troponin", 0.0) > 0.5, cardiac, 15.0);
    var cardiac := AddCappedIf(Get(data, "ejectionFraction", 60.0) < 40.0, cardiac, 15.0);
    var cardiac := AddCappedIf(Get(data, "stDepression", 0.0) > 2.0, cardiac, 10.0);

    var liver := baseRisk * 0.3;
    var liver := AddCappedIf(Above(data, "alt", 56.0), liver, 25.0);
    var liver := AddCappedIf(Above(data, "ast", 40.0), liver, 20.0);
    var liver := AddCappedIf(Above(data, "bilirubin", 1.2), liver, 15.0);
    var liver := AddCappedIf(Below(data, "albumin", 3.5), liver, 10.0);

    var kidney := baseRisk * 0.4;
    var kidney := if Get(data, "creatinine", 1.0) > 2.0 then AddCapped(kidney, 30.0)
                  else AddCappedIf(Get(data, "creatinine", 1.0) > 1.5, kidney, 20.0);
    var kidney := AddCappedIf(Below(data, "gfr", 60.0), kidney, 25.0);
    var kidney := AddCappedIf(Above(data, "protein_urine", 30.0), kidney, 20.0);

    var hypertension := HypertensionBase(Get(data, "bp", 0.0));
    var hypertension := AddCappedIf(Above(data, "systolic_bp", 140.0), hypertension, 15.0);
    var hypertension := AddCappedIf(Above(data, "diastolic_bp", 90.0), hypertension, 10.0);

    DiseaseRisks(MinR(cardiac, 100.0), MinR(liver, 100.0), MinR(kidney, 100.0), MinR(hypertension, 100.0))
  }

  /** For a base risk of at most 100, every disease risk is its start value plus its bonuses, capped once at 100. */
  lemma DiseaseRisksAreCappedSums(data: Patient, baseRisk: real)
    requires baseRisk <= 100.0
    ensures var r := CalculateDiseaseRisks(data, baseRisk);
            && r.cardiac == MinR(baseRisk * 0.85 + CardiacBonus(data), 100.0)
            && r.liver == MinR(baseRisk * 0.3 + LiverBonus(data), 100.0)
            && r.kidney == MinR(baseRisk * 0.4 + KidneyBonus(data), 100.0)
            && r.hypertension == MinR(HypertensionBase(Get(data, "bp", 0.0)) + HypertensionBonus(data), 100.0)
  {
    // Negative base risks are allowed; the 0.85, 0.3 and 0.4 scalings keep them at most 100.
    assert baseRisk * 0.85 <= 100.0 && baseRisk * 0.3 <= 100.0 && baseRisk * 0.4 <= 100.0;
  }

  // ---------------------------------------------------------------------
  // _train_model: the labelling rule of the synthetic samples
  // ---------------------------------------------------------------------

  /** One synthetic patient; `maxHr` is drawn but does not enter the label. */
  datatype Sample = Sample(age: real, bp: real, cholesterol: real, glucose: real, maxHr: real,
                           stDepression: real, troponin: real, ejectionFraction: real,
                           creatinine: real, bmi: real)

  /** The points summed for a sample before the cap. */
  function SamplePoints(x: Sample): nat
  {
    (if x.age > 65.0 then 25 else if x.age > 55.0 then 15 else 0)
    + (if x.bp > 160.0 then 20 else if x.bp > 140.0 then 12 else 0)
    + (if x.cholesterol > 240.0 then 15 else if x.cholesterol > 200.0 then 8 else 0)
    + (if x.glucose > 160.0 then 15 else if x.glucose > 125.0 then 8 else 0)
    + (if x.troponin > 0.5 then 20 else 0)
    + (if x.ejectionFraction < 40.0 then 20 else if x.ejectionFraction < 50.0 then 10 else 0)
    + (if x.stDepression > 2.0 then 10 else 0)
    + (if x.creatinine > 1.5 then 8 else 0)
    + (if x.bmi > 30.0 then 6 else 0)
  }

  /** The sample's risk score, capped at 100. */
  function SampleScore(x: Sample): (r: nat)
    ensures r <= 100
    ensures r == 100 || r == SamplePoints(x)
  {
    var p := SamplePoints(x);
    if p <= 100 then p else 100
  }

  /** The label: 0 (Low) below 40, 1 (Moderate) below 70, else 2 (High). */
  function SampleClass(score: nat): (c: nat)
    ensures c == 0 <==> score < 40
    ensures c == 1 <==> 40 <= score < 70
    ensures c == 2 <==> score >= 70
  {
    if score < 40 then 0 else if score < 70 then 1 else 2
  }

  /**
   * The first six tiers of the labelling rule are exactly the checks of the
   * rule-based DeepSeek fallback; the last three add at most 24 points.
   */
  lemma SamplePointsExtendFallbackChecks(x: Sample)
    ensures SamplePoints(x) ==
              DeepSeek.AgeCheck(x.age).points + DeepSeek.BpCheck(x.bp).points
              + DeepSeek.CholesterolCheck(x.cholesterol).points + DeepSeek.GlucoseCheck(x.glucose).points
              + DeepSeek.TroponinCheck(x.troponin).points
              + DeepSeek.EjectionFractionCheck(x.ejectionFraction).points
              + (if x.stDepression > 2.0 then 10 else 0) + (if x.creatinine > 1.5 then 8 else 0)
              + (if x.bmi > 30.0 then 6 else 0)
    ensures SamplePoints(x) <= 139
  {
    assert (if x.age > 65.0 then 25 else if x.age > 55.0 then 15 else 0) == DeepSeek.AgeCheck(x.age).points;
    assert (if x.bp > 160.0 then 20 else if x.bp > 140.0 then 12 else 0) == DeepSeek.BpCheck(x.bp).points;
    assert (if x.cholesterol > 240.0 then 15 else if x.cholesterol > 200.0 then 8 else 0)
      == DeepSeek.CholesterolCheck(x.cholesterol).points;
    assert (if x.glucose > 160.0 then 15 else if x.glucose > 125.0 then 8 else 0)
      == DeepSeek.GlucoseCheck(x.glucose).points;
    assert (if x.troponin > 0.5 then 20 else 0) == DeepSeek.TroponinCheck(x.troponin).points;
    assert (if x.ejectionFraction < 40.0 then 20 else if x.ejectionFraction < 50.0 then 10 else 0)
      == DeepSeek.EjectionFractionCheck(x.ejectionFraction).points;
  }

  /** The cap matters: the worst sample scores 139 points before it. */
  lemma CapReached()
    ensures SamplePoints(Sample(80.0, 190.0, 280.0, 190.0, 100.0, 3.0, 1.5, 30.0, 2.5, 35.0)) == 139
    ensures SampleScore(Sample(80.0, 190.0, 280.0, 190.0, 100.0, 3.0, 1.5, 30.0, 2.5, 35.0)) == 100
  {
  }
}
