/**
 * The logistic-regression cardiac model with its explanation values
 * (backend/models/risk_model.py): the `is_trained` flag that guards
 * prediction, importances and saving; the normalised importances; and the
 * SHAP contributions, mocked by fixed thresholds when the model is untrained
 * or the explainer fails.
 *
 * scikit-learn and SHAP are not modelled: what they produce (the fitted
 * coefficients, the predicted probabilities, the explainer's values) is an
 * input. Pickle files are not modelled either; whether they exist is an input.
 */
module RiskModel {
  import opened Wrappers
  import opened Sorting

  /** The model's features, in the order of its coefficient vector. */
  const FeatureNames: seq<string> := [
    "age", "bp", "cholesterol", "glucose", "maxHr", "stDepression",
    "troponin", "ejectionFraction", "creatinine", "bmi"]

  // ---------------------------------------------------------------------
  // get_feature_importance: |coefficients| normalised to sum to 1
  // ---------------------------------------------------------------------

  function Abs(x: real): real { if x < 0.0 then -x else x }

  function Sum(s: seq<real>): real
  {
    if s == [] then 0.0 else s[0] + Sum(s[1..])
  }

  function Magnitudes(coefficients: seq<real>): (r: seq<real>)
    ensures |r| == |coefficients|
    ensures forall i :: 0 <= i < |r| ==> r[i] == Abs(coefficients[i])
  {
    seq(|coefficients|, i requires 0 <= i < |coefficients| => Abs(coefficients[i]))
  }

  lemma {:induction false} SumNonNegative(s: seq<real>)
    requires forall i :: 0 <= i < |s| ==> s[i] >= 0.0
    ensures Sum(s) >= 0.0
    ensures Sum(s) == 0.0 <==> forall i :: 0 <= i < |s| ==> s[i] == 0.0
  {
    if s != [] {
      SumNonNegative(s[1..]);
      if Sum(s) == 0.0 {
        forall i | 0 <= i < |s| ensures s[i] == 0.0 {
          if i > 0 {
            assert s[i] == s[1..][i - 1];
          }
        }
      }
    }
  }

  function Divided(s: seq<real>, total: real): (r: seq<real>)
    requires total != 0.0
    ensures |r| == |s|
    ensures forall i :: 0 <= i < |s| ==> r[i] == s[i] / total
  {
    seq(|s|, i requires 0 <= i < |s| => s[i] / total)
  }

  lemma {:induction false} SumDivided(s: seq<real>, total: real)
    requires total != 0.0
    ensures Sum(Divided(s, total)) == Sum(s) / total
  {
    if s != [] {
      SumDivided(s[1..], total);
      assert Divided(s, total)[1..] == Divided(s[1..], total);
    }
  }

  /**
   * The importances: each coefficient's magnitude divided by the sum of all
   * magnitudes. When every coefficient is 0 the division is 0/0 and every
   * importance is NaN.
   */
  datatype Importance = Normalized(weights: seq<real>) | NotANumber

  function NormalizedImportance(coefficients: seq<real>): (r: Importance)
  {
    var m := Magnitudes(coefficients);
    if Sum(m) == 0.0 then NotANumber else Normalized(Divided(m, Sum(m)))
  }

  lemma DivideBySelf(t: real)
    requires t != 0.0
    ensures t / t == 1.0
  {
  }

  lemma DivideThenMultiply(a: real, t: real)
    requires a >= 0.0 && t > 0.0
    ensures a / t >= 0.0 && (a / t) * t == a
  {
  }

  /** The importances are NaN exactly when every coefficient is zero. */
  lemma NotANumberIffAllZero(coefficients: seq<real>)
    ensures NormalizedImportance(coefficients).NotANumber? <==>
              forall i :: 0 <= i < |coefficients| ==> coefficients[i] == 0.0
  {
    var m := Magnitudes(coefficients);
    SumNonNegative(m);
    assert (forall i :: 0 <= i < |m| ==> m[i] == 0.0) <==>
           (forall i :: 0 <= i < |coefficients| ==> coefficients[i] == 0.0);
  }

  /**
   * Otherwise the importances are non-negative, proportional to the
   * coefficients' magnitudes, and sum to 1.
   */
  lemma NormalizedSumsToOne(coefficients: seq<real>)
    ensures var r := NormalizedImportance(coefficients);
            r.Normalized? ==>
              && |r.weights| == |coefficients|
              && (forall i :: 0 <= i < |r.weights| ==> r.weights[i] >= 0.0)
              && (forall i :: 0 <= i < |r.weights| ==>
                    r.weights[i] == Abs(coefficients[i]) / Sum(Magnitudes(coefficients)))
              && Sum(r.weights) == 1.0
  {
    var m := Magnitudes(coefficients);
    SumNonNegative(m);
    var total := Sum(m);
    if total != 0.0 {
      var w := Divided(m, total);
      assert NormalizedImportance(coefficients) == Normalized(w);
      DividedSumsToOne(m);
      DividedScalesBack(m, total);
    }
  }

  /** Values divided by their non-zero total sum to 1. */
  lemma DividedSumsToOne(m: seq<real>)
    requires Sum(m) != 0.0
    ensures Sum(Divided(m, Sum(m))) == 1.0
  {
    var total := Sum(m);
    SumDivided(m, total);
    DivideBySelf(total);
  }

  /** Non-negative values divided by a positive total stay non-negative and scale back. */
  lemma DividedScalesBack(m: seq<real>, total: real)
    requires forall i :: 0 <= i < |m| ==> m[i] >= 0.0
    requires total > 0.0
    ensures var w := Divided(m, total);
            forall i :: 0 <= i < |w| ==> w[i] >= 0.0 && w[i] * total == m[i]
  {
    var w := Divided(m, total);
    forall i | 0 <= i < |w| ensures w[i] >= 0.0 && w[i] * total == m[i] {
      DivideThenMultiply(m[i], total);
    }
  }

  /** `dict(zip(self.feature_names, importance))`, as name/weight pairs in feature order. */
  function Zip(names: seq<string>, weights: seq<real>): (r: seq<(string, real)>)
    ensures |r| == if |names| <= |weights| then |names| else |weights|
    ensures forall i :: 0 <= i < |r| ==> r[i] == (names[i], weights[i])
  {
    if names == [] || weights == [] then [] else [(names[0], weights[0])] + Zip(names[1..], weights[1..])
  }

  // ---------------------------------------------------------------------
  // SHAP contributions
  // ---------------------------------------------------------------------

  datatype Contribution = Contribution(feature: string, value: real, positive: bool)

  datatype Explanation = Explanation(contributions: seq<Contribution>, baseValue: real)

  /** The first row of the features handed to `_mock_shap_values`. */
  datatype Row = Row(troponin: real, ejectionFraction: real, stDepression: real, age: real,
                     creatinine: real, maxHr: real)

  function Contributing(feature: string, value: real): (c: Contribution)
    ensures c.feature == feature && c.value == value
    ensures c.positive <==> value > 0.0
  {
    Contribution(feature, value, value > 0.0)
  }

  /**
   * `_mock_shap_values`: six fixed-threshold contributions (troponin, ejection
   * fraction, ST depression, age, creatinine, maximum heart rate) and a base
   * value of 0.3.
   */
  function MockShapValues(row: Row): (e: Explanation)
    ensures |e.contributions| == 6 && e.baseValue == 0.3
    ensures forall i :: 0 <= i < 6 ==> (e.contributions[i].positive <==> e.contributions[i].value > 0.0)
  {
    Explanation(
      [ Contributing("Troponin", if row.troponin > 0.04 then 0.35 else -0.15),
        Contributing("Ejection Fraction", if row.ejectionFraction < 45.0 then 0.25 else -0.10),
        Contributing("ST Depression", if row.stDepression > 1.5 then 0.20 else -0.05),
        Contributing("Age", if row.age > 65.0 then 0.15 else -0.08),
        Contributing("Creatinine", if row.creatinine > 1.3 then 0.18 else -0.05),
        Contributing("Max Heart Rate", if row.maxHr > 140.0 then -0.12 else 0.08) ],
      0.3)
  }

  /**
   * A mock contribution raises the risk exactly when its marker is abnormal:
   * troponin above 0.04, ejection fraction below 45, ST depression above 1.5,
   * age above 65, creatinine above 1.3, and a maximum heart rate of at most 140.
   */
  lemma MockSignsFollowMarkers(row: Row)
    ensures var c := MockShapValues(row).contributions;
            && (c[0].positive <==> row.troponin > 0.04)
            && (c[1].positive <==> row.ejectionFraction < 45.0)
            && (c[2].positive <==> row.stDepression > 1.5)
            && (c[3].positive <==> row.age > 65.0)
            && (c[4].positive <==> row.creatinine > 1.3)
            && (c[5].positive <==> row.maxHr <= 140.0)
    ensures forall i :: 0 <= i < 6 ==>
              MockShapValues(row).contributions[i].feature
                == ["Troponin", "Ejection Fraction", "ST Depression", "Age", "Creatinine", "Max Heart Rate"][i]
  {
  }

  /** Descending by absolute value. */
  function ByMagnitude(): (before: (Contribution, Contribution) -> bool)
    ensures TotalPreorder(before)
    ensures forall a, b :: before(a, b) <==> Abs(a.value) >= Abs(b.value)
  {
    (a: Contribution, b: Contribution) => Abs(a.value) >= Abs(b.value)
  }

  /** What the linear explainer returns: one value per feature, and its expected value if it has one. */
  datatype ExplainerOutput = ExplainerOutput(values: seq<real>, expectedValue: Option<real>)

  /** One contribution per feature, in feature order. */
  function PerFeature(values: seq<real>): (r: seq<Contribution>)
    requires |values| >= |FeatureNames|
    ensures |r| == |FeatureNames|
    ensures forall i :: 0 <= i < |r| ==> r[i] == Contributing(FeatureNames[i], values[i])
  {
    seq(|FeatureNames|, i requires 0 <= i < |FeatureNames| => Contributing(FeatureNames[i], values[i]))
  }

  /**
   * The explained path: the ten contributions sorted by absolute value,
   * largest first, of which the first six are kept; the base value is the
   * explainer's expected value, or 0.5 when it has none.
   */
  function Explained(output: ExplainerOutput): (e: Explanation)
    requires |output.values| >= |FeatureNames|
    ensures |e.contributions| == 6
    ensures multiset(e.contributions) <= multiset(PerFeature(output.values))
    ensures forall i, j :: 0 <= i < j < 6 ==> Abs(e.contributions[i].value) >= Abs(e.contributions[j].value)
    ensures forall c, d ::
              (c in multiset(PerFeature(output.values)) - multiset(e.contributions) && d in e.contributions)
              ==> Abs(c.value) <= Abs(d.value)
    ensures output.expectedValue.Some? ==> e.baseValue == output.expectedValue.value
    ensures output.expectedValue.None? ==> e.baseValue == 0.5
  {
    var all := PerFeature(output.values);
    LargestSix(all);
    Explanation(Sort(all, ByMagnitude())[..6], if output.expectedValue.Some? then output.expectedValue.value else 0.5)
  }

  /** The first six of a list sorted by magnitude are its six largest, largest first. */
  lemma LargestSix(all: seq<Contribution>)
    requires |all| >= 6
    ensures var top := Sort(all, ByMagnitude());
            && |top| == |all|
            && multiset(top[..6]) <= multiset(all)
            && (forall i, j :: 0 <= i < j < 6 ==> Abs(top[i].value) >= Abs(top[j].value))
            && (forall c, d :: c in multiset(all) - multiset(top[..6]) && d in top[..6] ==> Abs(c.value) <= Abs(d.value))
  {
    var before := ByMagnitude();
    var s := Sort(all, before);
    SortSorted(all, before);
    PrefixPrecedesRest(all, s, 6, before);
    forall i, j | 0 <= i < j < 6 ensures Abs(s[i].value) >= Abs(s[j].value) {
      assert before(s[i], s[j]);
    }
    forall c, d | c in multiset(all) - multiset(s[..6]) && d in s[..6] ensures Abs(c.value) <= Abs(d.value) {
      assert before(d, c);
    }
  }

  /** The contributions of absolute value exactly `m`. */
  function Sized(m: real): Contribution -> bool
  {
    (c: Contribution) => Abs(c.value) == m
  }

  /**
   * The sort is stable: among contributions of equal magnitude, the six
   * kept are the earliest in feature order, in that order.
   */
  lemma ExplainedKeepsTies(output: ExplainerOutput, m: real)
    requires |output.values| >= |FeatureNames|
    requires m >= 0.0
    ensures Filter(Explained(output).contributions, Sized(m)) <= Filter(PerFeature(output.values), Sized(m))
  {
    var all := PerFeature(output.values);
    var sorted := Sort(all, ByMagnitude());
    SortKeepsSizes(all, m);
    assert sorted == sorted[..6] + sorted[6..];
    FilterKeepsOrder(sorted[..6], sorted[6..], Sized(m));
  }

  /** Sorting by magnitude keeps the contributions of each magnitude in their order. */
  lemma SortKeepsSizes(all: seq<Contribution>, m: real)
    requires m >= 0.0
    ensures Filter(Sort(all, ByMagnitude()), Sized(m)) == Filter(all, Sized(m))
  {
    var k := Contribution("", m, false);
    SortStable(all, ByMagnitude(), k);
    FilterSame(Sort(all, ByMagnitude()), Tied(ByMagnitude(), k), Sized(m));
    FilterSame(all, Tied(ByMagnitude(), k), Sized(m));
  }

  // ---------------------------------------------------------------------
  // The model object
  // ---------------------------------------------------------------------

  class CardiacRiskModel {
    /** `is_trained`. */
    var isTrained: bool
    /** The fitted coefficients `model.coef_[0]`; empty before training or loading. */
    var coefficients: seq<real>

    constructor()
      ensures !isTrained && coefficients == []
    {
      isTrained := false;
      coefficients := [];
    }

    /** `train`: fitting yields the coefficients; the model is then trained. */
    method Train(fitted: seq<real>)
      modifies this
      ensures isTrained && coefficients == fitted
    {
      coefficients := fitted;
      isTrained := true;
    }

    /** `predict_proba`: refused before training, otherwise the classifier's high-risk probabilities. */
    method PredictProba(classifierOutput: seq<real>) returns (r: Result<seq<real>>)
      ensures r.Err? <==> !isTrained
      ensures r.Err? ==> r.message == "Model not trained yet"
      ensures r.Ok? ==> r.value == classifierOutput
    {
      if !isTrained {
        return Err("Model not trained yet");
      }
      return Ok(classifierOutput);
    }

    /** `get_feature_importance`: refused before training, otherwise the normalised magnitudes by feature name. */
    method GetFeatureImportance() returns (r: Result<Option<seq<(string, real)>>>)
      ensures r.Err? <==> !isTrained
      ensures r.Err? ==> r.message == "Model not trained yet"
      ensures r.Ok? ==> match NormalizedImportance(coefficients)
                        case NotANumber => r.value == None
                        case Normalized(w) => r.value == Some(Zip(FeatureNames, w))
    {
      if !isTrained {
        return Err("Model not trained yet");
      }
      var importance := NormalizedImportance(coefficients);
      match importance
      case NotANumber =>
        return Ok(None);
      case Normalized(w) =>
        return Ok(Some(Zip(FeatureNames, w)));
    }

    /**
     * `calculate_shap_values`: the mock values when untrained; otherwise the
     * explained contributions, or the mock values again when the explainer
     * raised (`explained` is None) or gave fewer values than features.
     */
    method CalculateShapValues(row: Row, explained: Option<ExplainerOutput>) returns (e: Explanation)
      ensures !isTrained ==> e == MockShapValues(row)
      ensures isTrained && explained.Some? && |explained.value.values| >= |FeatureNames| ==>
                e == Explained(explained.value)
      ensures isTrained && (explained.None? || |explained.value.values| < |FeatureNames|) ==>
                e == MockShapValues(row)
    {
      if !isTrained {
        return MockShapValues(row);
      }
      if explained.None? || |explained.value.values| < |FeatureNames| {
        return MockShapValues(row);
      }
      return Explained(explained.value);
    }

    /** `save`: refused before training; writing the files is not modelled. */
    method Save() returns (r: Result<()>)
      ensures r.Err? <==> !isTrained
      ensures r.Err? ==> r.message == "Cannot save untrained model"
    {
      if !isTrained {
        return Err("Cannot save untrained model");
      }
      return Ok(());
    }

    /** `load`: only when both files exist are the stored coefficients taken and the model marked trained. */
    method Load(modelExists: bool, scalerExists: bool, stored: seq<real>) returns (loaded: bool)
      modifies this
      ensures loaded <==> modelExists && scalerExists
      ensures loaded ==> isTrained && coefficients == stored
      ensures !loaded ==> isTrained == old(isTrained) && coefficients == old(coefficients)
    {
      if modelExists && scalerExists {
        coefficients := stored;
        isTrained := true;
        return true;
      }
      return false;
    }
  }
}
