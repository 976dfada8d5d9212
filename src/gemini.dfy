/**
 * Cleaning and defaulting the Gemini predictor's answer, and its rule-based
 * fallback (backend/services/gemini_predictor.py).
 *
 * The HTTP call, `json.loads` and the timestamp are not modelled; the parsed
 * answer is an input whose fields may be absent.
 */
module Gemini {
  import opened Wrappers
  import opened Text
  import DeepSeek
  import PatientData
  import Stats

  /** Drops a leading "```json", then a leading "```", then a trailing "```". */
  function Unfence(cleaned: string): (r: string)
    ensures |r| <= |cleaned|
  {
    var cleaned := if StartsWith(cleaned, "```json") then cleaned[7..] else cleaned;
    var cleaned := if StartsWith(cleaned, "```") then cleaned[3..] else cleaned;
    if EndsWith(cleaned, "```") then cleaned[..|cleaned| - 3] else cleaned
  }

  /** Markdown fence removal: strip, drop the fences, and strip again. */
  function StripFences(text: string): (r: string)
    ensures |r| <= |text|
  {
    Strip(Unfence(Strip(text)))
  }

  /** Stripping a string with no whitespace at either end changes nothing. */
  lemma StripUnchanged(s: string)
    requires s == [] || (!IsSpace(s[0]) && !IsSpace(s[|s| - 1]))
    ensures Strip(s) == s
  {
    assert TrimStart(s) == s;
    assert TrimEnd(s) == s;
  }

  /** `strip` returns a contiguous piece of its input. */
  lemma StripSlice(s: string) returns (i: nat)
    ensures i + |Strip(s)| <= |s| && Strip(s) == s[i..i + |Strip(s)|]
  {
    StripIsSlice(s);
    i := |s| - |TrimStart(s)|;
  }

  /** A slice of a slice is a slice of the original. */
  lemma SliceOfSlice(text: string, s: string, a: nat, c: nat, d: nat)
    requires a + |s| <= |text| && s == text[a..a + |s|]
    requires c <= d <= |s|
    ensures s[c..d] == text[a + c..a + d]
  {
    assert forall k :: 0 <= k < d - c ==> s[c..d][k] == s[c + k] == text[a + c + k];
  }

  /** A piece of a piece of `text` is a piece of `text`. */
  lemma PieceOfPiece(text: string, s: string, a: nat, t: string, b: nat)
    requires a + |s| <= |text| && s == text[a..a + |s|]
    requires b + |t| <= |s| && t == s[b..b + |t|]
    ensures a + b + |t| <= |text| && t == text[a + b..a + b + |t|]
  {
    SliceOfSlice(text, s, a, b, b + |t|);
  }

  /** Dropping the fences leaves a contiguous piece of the input. */
  lemma UnfenceSlice(s: string) returns (i: nat)
    ensures i + |Unfence(s)| <= |s| && Unfence(s) == s[i..i + |Unfence(s)|]
  {
    var i1 := if StartsWith(s, "```json") then 7 else 0;
    var c1 := s[i1..];
    var i2 := if StartsWith(c1, "```") then 3 else 0;
    var c2 := c1[i2..];
    SliceOfSlice(s, c1, i1, i2, |c1|);
    var c3 := if EndsWith(c2, "```") then c2[..|c2| - 3] else c2;
    SliceOfSlice(s, c2, i1 + i2, 0, |c3|);
    i := i1 + i2;
  }

  /** Dropping the fences and stripping again leaves a contiguous piece of the input. */
  lemma StripUnfenceSlice(c: string) returns (i: nat)
    ensures i + |Strip(Unfence(c))| <= |c| && Strip(Unfence(c)) == c[i..i + |Strip(Unfence(c))|]
  {
    var i1 := UnfenceSlice(c);
    var u := Unfence(c);
    var i2 := StripSlice(u);
    PieceOfPiece(c, u, i1, Strip(u), i2);
    i := i1 + i2;
  }

  /** The cleaned text is always a contiguous piece of the answer, starting at the returned index. */
  lemma StripFencesIsSlice(text: string) returns (start: nat)
    ensures start + |StripFences(text)| <= |text|
    ensures StripFences(text) == text[start..start + |StripFences(text)|]
  {
    var i0 := StripSlice(text);
    var c := Strip(text);
    var i1 := StripUnfenceSlice(c);
    PieceOfPiece(text, c, i0, Strip(Unfence(c)), i1);
    start := i0 + i1;
  }

  /** Text without fences comes out merely stripped. */
  lemma NoFencesOnlyStripped(text: string)
    requires !StartsWith(Strip(text), "```") && !EndsWith(Strip(text), "```")
    ensures StripFences(text) == Strip(text)
  {
    var c := Strip(text);
    assert !StartsWith(c, "```json");
    assert Unfence(c) == c;
    StripUnchanged(c);
  }

  /** A fenced JSON block loses its fences and the surrounding line breaks. */
  lemma FencedBlockExample()
    ensures StripFences("```json\n{}\n```") == "{}"
  {
    var t := "```json\n{}\n```";
    StripUnchanged(t);
    assert StartsWith(t, "```json");
    var c1 := t[7..];
    assert c1 == "\n{}\n```";
    assert !StartsWith(c1, "```");
    assert EndsWith(c1, "```");
    var c3 := c1[..|c1| - 3];
    assert c3 == "\n{}\n";
    assert IsSpace(c3[0]) && c3[1..] == "{}\n";
    assert TrimStart(c3) == TrimStart("{}\n");
    assert !IsSpace("{}\n"[0]);
    assert TrimStart(c3) == "{}\n";
    assert IsSpace("{}\n"[2]) && "{}\n"[..2] == "{}";
    assert !IsSpace("{}"[1]);
    assert TrimEnd("{}\n") == "{}";
  }

  /** The defaulting in `parse_gemini_response`: as for DeepSeek, but labelled "Gemini AI". */
  function ParseResponse(answer: DeepSeek.Answer): (p: DeepSeek.Prediction)
    ensures answer.riskScore.None? ==> p.riskScore == 50
    ensures answer.riskCategory.None? ==> p.riskCategory == "Moderate"
    ensures answer.topFactors.None? ==> p.topFactors == DeepSeek.DefaultFactors()
    ensures answer.multiDiseaseRisks.None? ==> p.multiDiseaseRisks == DeepSeek.DiseaseRisks(50.0, 40.0, 45.0)
    ensures p.predictionMethod == "Gemini AI"
    ensures p == DeepSeek.ParseResponse(answer).(predictionMethod := "Gemini AI")
  {
    DeepSeek.Prediction(
      Stats.Truncate(DeepSeek.OrElse(answer.riskScore, 50.0)),
      DeepSeek.OrElse(answer.riskCategory, "Moderate"),
      DeepSeek.OrElse(answer.topFactors, DeepSeek.DefaultFactors()),
      DeepSeek.OrElse(answer.recommendation, "Consult with a cardiologist for detailed evaluation"),
      DeepSeek.OrElse(answer.multiDiseaseRisks, DeepSeek.DiseaseRisks(50.0, 40.0, 45.0)),
      "Gemini AI")
  }

  /** Score and factor names after the age check. */
  function AfterAge(age: real): (nat, seq<string>)
  {
    if age > 65.0 then (25, ["Advanced age"])
    else if age > 55.0 then (15, ["Age"])
    else (0, [])
  }

  function AfterBp(acc: (nat, seq<string>), bp: real): (nat, seq<string>)
  {
    if bp > 160.0 then (acc.0 + 20, acc.1 + ["Severe hypertension"])
    else if bp > 140.0 then (acc.0 + 12, acc.1 + ["Hypertension"])
    else acc
  }

  function AfterCholesterol(acc: (nat, seq<string>), cholesterol: real): (nat, seq<string>)
  {
    if cholesterol > 240.0 then (acc.0 + 15, acc.1 + ["High cholesterol"])
    else if cholesterol > 200.0 then (acc.0 + 8, acc.1)
    else acc
  }

  function AfterGlucose(acc: (nat, seq<string>), glucose: real): (nat, seq<string>)
  {
    if glucose > 160.0 then (acc.0 + 15, acc.1 + ["Diabetes"])
    else if glucose > 125.0 then (acc.0 + 8, acc.1 + ["Prediabetes"])
    else acc
  }

  function AfterTroponin(acc: (nat, seq<string>), troponin: real): (nat, seq<string>)
  {
    if troponin > 0.5 then (acc.0 + 20, acc.1 + ["Elevated troponin"]) else acc
  }

  function AfterEjectionFraction(acc: (nat, seq<string>), ef: real): (nat, seq<string>)
  {
    if ef < 40.0 then (acc.0 + 20, acc.1 + ["Reduced ejection fraction"])
    else if ef < 50.0 then (acc.0 + 10, acc.1)
    else acc
  }

  /** The running score and factor list after all six checks. */
  function Accumulate(data: PatientData.Patient): (nat, seq<string>)
  {
    var acc := AfterAge(PatientData.Get(data, "age", 0.0));
    var acc := AfterBp(acc, PatientData.Get(data, "bp", 0.0));
    var acc := AfterCholesterol(acc, PatientData.Get(data, "cholesterol", 0.0));
    var acc := AfterGlucose(acc, PatientData.Get(data, "glucose", 0.0));
    var acc := AfterTroponin(acc, PatientData.Get(data, "troponin", 0.0));
    AfterEjectionFraction(acc, PatientData.Get(data, "ejectionFraction", 60.0))
  }

  /** `fallback_prediction`: the score capped at 100, the 30/60/80 category, three factors or the defaults. */
  function FallbackPrediction(data: PatientData.Patient): (p: DeepSeek.Prediction)
  {
    var acc := Accumulate(data);
    var score := if acc.0 <= 100 then acc.0 else 100;
    var category := if score < 30 then "Low" else if score < 60 then "Moderate" else if score < 80 then "High" else "Critical";
    var top := if acc.1 != [] then (if |acc.1| <= 3 then acc.1 else acc.1[..3]) else ["Age", "Blood Pressure", "Cholesterol"];
    DeepSeek.Prediction(
      score, category, top,
      "Based on " + Lower(category)
      + " risk assessment, consult with a cardiologist for comprehensive evaluation and treatment planning.",
      DeepSeek.DiseaseRisks(DeepSeek.MinR(score as real * 0.85, 100.0), DeepSeek.MinR(score as real * 0.65, 100.0),
                            DeepSeek.MinR(score as real * 0.75, 100.0)),
      "Rule-based (Fallback)")
  }

  /** One check applied to the running score and factor list. */
  function Step(acc: (nat, seq<string>), c: DeepSeek.Check): (nat, seq<string>)
  {
    (acc.0 + c.points, acc.1 + DeepSeek.NameOf(c))
  }

  lemma AgeStep(x: real)
    ensures AfterAge(x) == Step((0, []), DeepSeek.AgeCheck(x))
  {
    if x > 65.0 {
      assert [] + ["Advanced age"] == ["Advanced age"];
    } else if x > 55.0 {
      assert DeepSeek.AgeCheck(x) == DeepSeek.Check(15, Some("Age"));
      assert [] + ["Age"] == ["Age"];
    } else {
      var none: seq<string> := [];
      assert none + DeepSeek.NameOf(DeepSeek.AgeCheck(x)) == none;
    }
  }

  /** Each later reassignment step adds exactly what the corresponding DeepSeek check records. */
  lemma StepsMatchChecks(acc: (nat, seq<string>), x: real)
    ensures AfterBp(acc, x) == Step(acc, DeepSeek.BpCheck(x))
    ensures AfterCholesterol(acc, x) == Step(acc, DeepSeek.CholesterolCheck(x))
    ensures AfterGlucose(acc, x) == Step(acc, DeepSeek.GlucoseCheck(x))
    ensures AfterTroponin(acc, x) == Step(acc, DeepSeek.TroponinCheck(x))
    ensures AfterEjectionFraction(acc, x) == Step(acc, DeepSeek.EjectionFractionCheck(x))
  {
    assert acc.1 + [] == acc.1;
  }

  /** The names of two runs of checks are the names of each run, concatenated. */
  lemma {:induction false} NamesAppend(a: seq<DeepSeek.Check>, b: seq<DeepSeek.Check>)
    ensures DeepSeek.Names(a + b) == DeepSeek.Names(a) + DeepSeek.Names(b)
  {
    if a == [] {
      assert a + b == b;
    } else {
      assert (a + b)[0] == a[0];
      assert (a + b)[1..] == a[1..] + b;
      NamesAppend(a[1..], b);
    }
  }

  /** One more check adds its own name, if any, at the end. */
  lemma NamesSnoc(c: seq<DeepSeek.Check>, k: nat)
    requires k < |c|
    ensures DeepSeek.Names(c[..k + 1]) == DeepSeek.Names(c[..k]) + DeepSeek.NameOf(c[k])
  {
    assert c[..k + 1] == c[..k] + [c[k]];
    NamesAppend(c[..k], [c[k]]);
    assert [c[k]][1..] == [];
  }

  /** `Names` over six checks, as the running list builds it. */
  lemma NamesOfSix(c: seq<DeepSeek.Check>)
    requires |c| == 6
    ensures DeepSeek.Names(c) == [] + DeepSeek.NameOf(c[0]) + DeepSeek.NameOf(c[1]) + DeepSeek.NameOf(c[2])
                                 + DeepSeek.NameOf(c[3]) + DeepSeek.NameOf(c[4]) + DeepSeek.NameOf(c[5])
  {
    assert c[..0] == [];
    NamesSnoc(c, 0);
    NamesSnoc(c, 1);
    NamesSnoc(c, 2);
    NamesSnoc(c, 3);
    NamesSnoc(c, 4);
    NamesSnoc(c, 5);
    assert c[..6] == c;
  }

  /** The running accumulation agrees with the DeepSeek list of checks. */
  lemma AccumulateMatchesChecks(data: PatientData.Patient)
    ensures Accumulate(data) == (DeepSeek.RawScore(data), DeepSeek.Names(DeepSeek.Checks(data)))
  {
    var c := DeepSeek.Checks(data);
    var a0 := Step((0, []), c[0]);
    AgeStep(PatientData.Get(data, "age", 0.0));
    var a1 := Step(a0, c[1]);
    StepsMatchChecks(a0, PatientData.Get(data, "bp", 0.0));
    var a2 := Step(a1, c[2]);
    StepsMatchChecks(a1, PatientData.Get(data, "cholesterol", 0.0));
    var a3 := Step(a2, c[3]);
    StepsMatchChecks(a2, PatientData.Get(data, "glucose", 0.0));
    var a4 := Step(a3, c[4]);
    StepsMatchChecks(a3, PatientData.Get(data, "troponin", 0.0));
    var a5 := Step(a4, c[5]);
    StepsMatchChecks(a4, PatientData.Get(data, "ejectionFraction", 60.0));
    assert Accumulate(data) == a5;
    NamesOfSix(c);
    assert a5.0 == DeepSeek.RawScore(data);
  }

  /** The two fallbacks produce the same prediction for every patient. */
  lemma SameFallbackAsDeepSeek(data: PatientData.Patient)
    ensures FallbackPrediction(data) == DeepSeek.FallbackPrediction(data)
  {
    AccumulateMatchesChecks(data);
    var g, d := FallbackPrediction(data), DeepSeek.FallbackPrediction(data);
    assert g.riskScore == d.riskScore;
    assert g.riskCategory == d.riskCategory;
    assert g.topFactors == d.topFactors;
  }
}
