/**
 * The request handlers of the prediction API (backend/main.py): the
 * single-patient prediction with its multi-disease inputs, 20-day forecast
 * and in-memory prediction log, and the CSV batch prediction with its
 * summary.
 *
 * Reading the upload, decoding it and parsing the CSV are a parameter: the
 * parsed table or the parser's error text. An HTTP error is an `Err`
 * carrying its detail text; every error these handlers raise themselves has
 * status 400. Clock readings and random draws are parameters too.
 */
module Api {
  import opened Wrappers
  import opened Text
  import opened Factors
  import opened Stats
  import opened Forecasting
  import opened Preprocessing
  import MultiDisease

  // ---------- batch upload checks ----------

  const MaxUploadBytes: nat := 5 * 1024 * 1024

  /** The columns a batch file must have, in the order the handler lists them. */
  const RequiredColumns: seq<string> :=
    ["age", "bp", "cholesterol", "glucose", "maxHr", "stDepression",
     "troponin", "ejectionFraction", "creatinine", "bmi"]

  /** `[col for col in required if col not in columns]`. */
  function MissingFrom(required: seq<string>, columns: seq<string>): (r: seq<string>)
    ensures forall c :: c in r <==> c in required && c !in columns
    ensures |r| <= |required|
  {
    if required == [] then []
    else (if required[0] in columns then [] else [required[0]]) + MissingFrom(required[1..], columns)
  }

  /**
   * The missing columns keep the required-list order: the missing columns of
   * a concatenation are those of the first part followed by those of the second.
   */
  lemma {:induction false} MissingFromKeepsOrder(a: seq<string>, b: seq<string>, columns: seq<string>)
    ensures MissingFrom(a + b, columns) == MissingFrom(a, columns) + MissingFrom(b, columns)
  {
    if a == [] {
      assert a + b == b;
    } else {
      assert (a + b)[0] == a[0];
      assert (a + b)[1..] == a[1..] + b;
      MissingFromKeepsOrder(a[1..], b, columns);
    }
  }

  /** A parsed CSV file: its header and one request per data row. */
  datatype Table = Table(columns: seq<string>, rows: seq<Request>)

  /**
   * The checks `predict_batch` makes before touching any row, in its order:
   * the file name must end in ".csv", the contents may be at most 5 MiB, the
   * parser must succeed, and every required column must be present.
   */
  function CheckUpload(filename: string, size: nat, parsed: Result<Table>): (r: Result<Table>)
    ensures !EndsWith(filename, ".csv") ==> r == Err("File must be a CSV")
    ensures EndsWith(filename, ".csv") && size > MaxUploadBytes ==> r == Err("File size exceeds 5MB limit")
    ensures EndsWith(filename, ".csv") && size <= MaxUploadBytes && parsed.Err? ==>
              r == Err("Invalid CSV format: " + parsed.message)
    ensures EndsWith(filename, ".csv") && size <= MaxUploadBytes && parsed.Ok?
            && MissingFrom(RequiredColumns, parsed.value.columns) != [] ==>
              r == Err("Missing required columns: " + Join(MissingFrom(RequiredColumns, parsed.value.columns), ", "))
    ensures r.Ok? <==> && EndsWith(filename, ".csv") && size <= MaxUploadBytes && parsed.Ok?
                       && forall c :: c in RequiredColumns ==> c in parsed.value.columns
    ensures r.Ok? ==> r == parsed
  {
    if !EndsWith(filename, ".csv") then Err("File must be a CSV")
    else if size > MaxUploadBytes then Err("File size exceeds 5MB limit")
    else if parsed.Err? then Err("Invalid CSV format: " + parsed.message)
    else
      var missing := MissingFrom(RequiredColumns, parsed.value.columns);
      if missing != [] then
        assert missing[0] in missing;
        Err("Missing required columns: " + Join(missing, ", "))
      else parsed
  }

  // ---------- batch rows ----------

  /** One entry of the batch response: a scored row, or a row whose risk score is None. */
  datatype Entry =
    | Scored(patientId: nat, riskScore: real, riskCategory: string, topFactor: string,
             age: real, troponin: real, ejectionFraction: real)
    | Failed(patientId: nat, error: string)

  /** The category an entry reports: a failed row reports "Error". */
  function CategoryOf(e: Entry): string
  {
    if e.Scored? then e.riskCategory else "Error"
  }

  /** A request that passes every validation rule. */
  predicate Valid(row: Request)
  {
    forall i :: 0 <= i < |Rules()| ==> Passes(row, Rules()[i])
  }

  /** The ten numbers `calculate_risk_score` reads from a request that passed validation. */
  function ToVitals(row: Request): (v: Vitals)
    requires Valid(row)
  {
    var rules := Rules();
    assert Passes(row, rules[0]) && Passes(row, rules[1]) && Passes(row, rules[2]);
    assert Passes(row, rules[3]) && Passes(row, rules[4]) && Passes(row, rules[5]);
    assert Passes(row, rules[6]) && Passes(row, rules[7]) && Passes(row, rules[8]);
    assert Passes(row, rules[9]);
    Vitals(row["age"].x, row["bp"].x, row["cholesterol"].x, row["glucose"].x, row["maxHr"].x,
           row["stDepression"].x, row["troponin"].x, row["ejectionFraction"].x,
           row["creatinine"].x, row["bmi"].x)
  }

  /** The name of the strongest factor, or "N/A" when there is none. */
  function TopFactorName(factors: seq<Factor>): (name: string)
    ensures factors == [] ==> name == "N/A"
  {
    if factors == [] then "N/A" else factors[0].name
  }

  /**
   * The entry for the row at index `index`: numbered from 1, an error entry
   * carrying the validation message when the row is invalid, and otherwise
   * the clamped score, its category and the strongest factor.
   */
  function EntryFor(index: nat, row: Request): (e: Entry)
    ensures e.patientId == index + 1
    ensures e.Failed? <==> !Valid(row)
    ensures e.Failed? ==> Some(e.error) == FirstFailure(row, Rules())
    ensures e.Scored? ==> 1.0 <= e.riskScore <= 99.0
    ensures e.Scored? ==> e.riskCategory == Preprocessing.RiskCategory(e.riskScore)
  {
    match FirstFailure(row, Rules())
    case Some(message) => Failed(index + 1, message)
    case None =>
      var v := ToVitals(row);
      var result := CalculateRiskScore(v);
      Scored(index + 1, result.riskScore, result.riskCategory, TopFactorName(result.topFactors),
             v.age, v.troponin, v.ejectionFraction)
  }

  /** `[p['risk_score'] for p in predictions if p['risk_score'] is not None]`. */
  function ValidScores(predictions: seq<Entry>): (r: seq<real>)
    ensures |r| <= |predictions|
    ensures |r| == |predictions| <==> forall i :: 0 <= i < |predictions| ==> predictions[i].Scored?
  {
    if predictions == [] then []
    else
      var last := predictions[|predictions| - 1];
      ValidScores(predictions[..|predictions| - 1]) + (if last.Scored? then [last.riskScore] else [])
  }

  /** The body of `predict_batch`'s row loop: validate the row, then score it. */
  method PredictRow(idx: nat, row: Request) returns (entry: Entry)
    ensures entry == EntryFor(idx, row)
  {
    var valid, message := ValidateInput(row);
    if !valid {
      return Failed(idx + 1, message);
    }
    var v := ToVitals(row);
    var result := CalculateRiskScore(v);
    return Scored(idx + 1, result.riskScore, result.riskCategory, TopFactorName(result.topFactors),
                  v.age, v.troponin, v.ejectionFraction);
  }

  /**
   * `predict_batch`'s row loop: exactly one entry per row, in row order, and
   * the list of successful scores kept beside it.
   */
  method PredictBatch(rows: seq<Request>) returns (predictions: seq<Entry>, riskScores: seq<real>)
    ensures |predictions| == |rows|
    ensures forall i :: 0 <= i < |rows| ==> predictions[i] == EntryFor(i, rows[i])
    ensures riskScores == ValidScores(predictions)
  {
    predictions := [];
    riskScores := [];
    for idx := 0 to |rows|
      invariant |predictions| == idx
      invariant forall i :: 0 <= i < idx ==> predictions[i] == EntryFor(i, rows[i])
      invariant riskScores == ValidScores(predictions)
    {
      var entry := PredictRow(idx, rows[idx]);
      if entry.Scored? {
        riskScores := riskScores + [entry.riskScore];
      }
      ValidScoresAppend(predictions, entry);
      EntriesExtend(rows, predictions, entry);
      predictions := predictions + [entry];
    }
  }

  /** Appending the next row's entry keeps "entry i is the entry for row i". */
  lemma EntriesExtend(rows: seq<Request>, predictions: seq<Entry>, entry: Entry)
    requires |predictions| < |rows|
    requires forall i :: 0 <= i < |predictions| ==> predictions[i] == EntryFor(i, rows[i])
    requires entry == EntryFor(|predictions|, rows[|predictions|])
    ensures forall i :: 0 <= i < |predictions| + 1 ==> (predictions + [entry])[i] == EntryFor(i, rows[i])
  {
    forall i | 0 <= i < |predictions| + 1 ensures (predictions + [entry])[i] == EntryFor(i, rows[i]) {
      if i < |predictions| {
        assert (predictions + [entry])[i] == predictions[i];
      }
    }
  }

  /** A new entry adds its score, if it has one, at the end of the score list. */
  lemma ValidScoresAppend(predictions: seq<Entry>, entry: Entry)
    ensures ValidScores(predictions + [entry])
              == ValidScores(predictions) + (if entry.Scored? then [entry.riskScore] else [])
  {
    assert (predictions + [entry])[..|predictions|] == predictions;
  }

  // ---------- batch summary ----------

  datatype Summary = Summary(
    totalPatients: nat, successful: nat, failed: nat, averageRisk: real,
    highRisk: nat, moderateRisk: nat, lowRisk: nat, maxRisk: real, minRisk: real)

  function High(): real -> bool { s => s >= 60.0 }
  function Moderate(): real -> bool { s => 30.0 <= s < 60.0 }
  function Low(): real -> bool { s => s < 30.0 }

  /** Every score lies in exactly one of the three bands, so the band counts add up to the list's length. */
  lemma {:induction false} BandsPartition(scores: seq<real>)
    ensures CountWhere(scores, High()) + CountWhere(scores, Moderate()) + CountWhere(scores, Low()) == |scores|
  {
    if scores != [] {
      BandsPartition(scores[1..]);
    }
  }

  /**
   * The summary statistics: every entry is counted once as a success or a
   * failure; the band counts are the numbers of scores at or above 60, in
   * [30, 60) and below 30, and so partition the successes; average, maximum
   * and minimum are 0 without successes, and otherwise the average is the
   * mean of the scores and the maximum and minimum are the largest and the
   * smallest score.
   */
  function Summarize(predictions: seq<Entry>): (s: Summary)
    ensures s.totalPatients == |predictions|
    ensures s.successful == |ValidScores(predictions)|
    ensures s.successful + s.failed == s.totalPatients
    ensures var scores := ValidScores(predictions);
            && s.highRisk == CountWhere(scores, High())
            && s.moderateRisk == CountWhere(scores, Moderate())
            && s.lowRisk == CountWhere(scores, Low())
    ensures s.highRisk + s.moderateRisk + s.lowRisk == s.successful
    ensures s.successful == 0 ==> s.averageRisk == 0.0 && s.maxRisk == 0.0 && s.minRisk == 0.0
    ensures s.successful > 0 ==> s.averageRisk == Sum(ValidScores(predictions)) / (s.successful as real)
    ensures s.successful > 0 ==> s.maxRisk in ValidScores(predictions) && s.minRisk in ValidScores(predictions)
    ensures var scores := ValidScores(predictions);
            forall i :: 0 <= i < |scores| ==> s.minRisk <= scores[i] <= s.maxRisk
    ensures s.successful > 0 ==> s.minRisk <= s.averageRisk <= s.maxRisk
  {
    var scores := ValidScores(predictions);
    BandsPartition(scores);
    var maxRisk := if scores == [] then 0.0 else MaxOf(scores);
    var minRisk := if scores == [] then 0.0 else MinOf(scores);
    var s := Summary(|predictions|, |scores|, |predictions| - |scores|, MeanOrZero(scores),
                     CountWhere(scores, High()), CountWhere(scores, Moderate()), CountWhere(scores, Low()),
                     maxRisk, minRisk);
    if scores == [] then s
    else
      assert forall i :: 0 <= i < |scores| ==> minRisk <= scores[i] <= maxRisk;
      MeanWithin(scores, minRisk, maxRisk);
      s
  }

  /** A batch the whole handler answers: the upload checks, then the rows, then the summary. */
  method BatchPredict(filename: string, size: nat, parsed: Result<Table>)
    returns (r: Result<(seq<Entry>, Summary)>)
    ensures r.Err? <==> CheckUpload(filename, size, parsed).Err?
    ensures r.Err? ==> r.message == CheckUpload(filename, size, parsed).message
    ensures r.Ok? ==> var rows := parsed.value.rows;
                      && |r.value.0| == |rows|
                      && (forall i :: 0 <= i < |rows| ==> r.value.0[i] == EntryFor(i, rows[i]))
                      && r.value.1 == Summarize(r.value.0)
  {
    var checked := CheckUpload(filename, size, parsed);
    if checked.Err? {
      return Err(checked.message);
    }
    var predictions, _ := PredictBatch(checked.value.rows);
    return Ok((predictions, Summarize(predictions)));
  }

  // ---------- single prediction ----------

  /** The request body: ten required parameters and the optional multi-disease ones. */
  datatype PatientInput = PatientInput(
    age: real, bp: real, cholesterol: real, glucose: int, maxHr: real,
    stDepression: real, troponin: real, ejectionFraction: real, creatinine: real, bmi: real,
    hba1c: Option<real>, gfr: Option<real>, proteinUrine: Option<real>,
    alt: Option<real>, ast: Option<real>, bilirubin: Option<real>, albumin: Option<real>,
    plateletCount: Option<real>, systolicBp: Option<int>, diastolicBp: Option<int>)

  /** `patient.model_dump()` as `validate_input` sees it: the ten required parameters, all numeric. */
  function ToRequest(p: PatientInput): (r: Request)
    ensures forall i :: 0 <= i < |Rules()| ==> Rules()[i].field in r && r[Rules()[i].field].Num?
  {
    map["age" := Num(p.age), "bp" := Num(p.bp), "cholesterol" := Num(p.cholesterol),
        "glucose" := Num(p.glucose as real), "maxHr" := Num(p.maxHr),
        "stDepression" := Num(p.stDepression), "troponin" := Num(p.troponin),
        "ejectionFraction" := Num(p.ejectionFraction), "creatinine" := Num(p.creatinine),
        "bmi" := Num(p.bmi)]
  }

  /** The ten clinical parameters of the request body, as `calculate_risk_score` reads them. */
  function VitalsOf(p: PatientInput): Vitals
  {
    Vitals(p.age, p.bp, p.cholesterol, p.glucose as real, p.maxHr, p.stDepression,
           p.troponin, p.ejectionFraction, p.creatinine, p.bmi)
  }

  /** The value of a supplied optional parameter, else the given default. */
  function OrDefault<T>(o: Option<T>, default: T): T
  {
    if o.Some? then o.value else default
  }

  /**
   * Adds a key that `model_dump()` always writes: a supplied value is
   * stored, a `None` value is left out, since every calculator reads it
   * through `x or d` and so treats `None` as absent.
   */
  function Dumped(data: MultiDisease.Patient, key: string, o: Option<real>): (d: MultiDisease.Patient)
    ensures o.None? ==> d == data
    ensures o.Some? ==> d == data[key := o.value]
  {
    if o.Some? then data[key := o.value] else data
  }

  function IntAsReal(o: Option<int>): Option<real>
  {
    if o.Some? then Some(o.value as real) else None
  }

  /**
   * The diabetes calculator's input as written: after `model_dump()` an
   * unsupplied HbA1c is `None`, so the handler's `.get` default is never
   * taken and the calculator's own fallback applies.
   */
  function DiabetesInput(p: PatientInput): MultiDisease.Patient
  {
    Dumped(map["glucose" := (p.glucose * 120) as real, "bmi" := p.bmi, "age" := p.age, "bp" := p.bp],
           "hba1c", p.hba1c)
  }

  /** The kidney calculator's input as written; unsupplied values reach it as `None`. */
  function KidneyInput(p: PatientInput): MultiDisease.Patient
  {
    var dumped := map["creatinine" := p.creatinine, "bp" := p.bp, "age" := p.age];
    Dumped(Dumped(dumped, "gfr", p.gfr), "protein_urine", p.proteinUrine)
  }

  /** The liver calculator's input as written; unsupplied values reach it as `None`. */
  function LiverInput(p: PatientInput): MultiDisease.Patient
  {
    var dumped := Dumped(Dumped(Dumped(map[], "alt", p.alt), "ast", p.ast), "bilirubin", p.bilirubin);
    Dumped(Dumped(dumped, "albumin", p.albumin), "platelet_count", p.plateletCount)
  }

  /** The inputs the handler's `.get` defaults describe: 5.5, 100, 15, 30, 25, 0.8, 4.0 and 250. */
  function DiabetesInputWithDefaults(p: PatientInput): MultiDisease.Patient
  {
    map["glucose" := (p.glucose * 120) as real, "hba1c" := OrDefault(p.hba1c, 5.5),
        "bmi" := p.bmi, "age" := p.age, "bp" := p.bp]
  }

  function KidneyInputWithDefaults(p: PatientInput): MultiDisease.Patient
  {
    map["creatinine" := p.creatinine, "gfr" := OrDefault(p.gfr, 100.0),
        "protein_urine" := OrDefault(p.proteinUrine, 15.0), "bp" := p.bp, "age" := p.age]
  }

  function LiverInputWithDefaults(p: PatientInput): MultiDisease.Patient
  {
    map["alt" := OrDefault(p.alt, 30.0), "ast" := OrDefault(p.ast, 25.0),
        "bilirubin" := OrDefault(p.bilirubin, 0.8), "albumin" := OrDefault(p.albumin, 4.0),
        "platelet_count" := OrDefault(p.plateletCount, 250.0)]
  }

  /**
   * The handler's HbA1c default never changes the diabetes assessment: 5.5
   * and the calculator's own fallback 0 both lie under 5.7, in the tier that
   * adds no points.
   */
  lemma DiabetesDefaultsAgree(p: PatientInput)
    ensures MultiDisease.CalculateDiabetesRisk(DiabetesInput(p))
            == MultiDisease.CalculateDiabetesRisk(DiabetesInputWithDefaults(p))
  {
    var d, dd := DiabetesInput(p), DiabetesInputWithDefaults(p);
    assert MultiDisease.Or(d, "glucose", 0.0) == MultiDisease.Or(dd, "glucose", 0.0);
    assert MultiDisease.Or(d, "bmi", 0.0) == MultiDisease.Or(dd, "bmi", 0.0);
    assert MultiDisease.Or(d, "age", 0.0) == MultiDisease.Or(dd, "age", 0.0);
    assert MultiDisease.Hba1cTier(MultiDisease.Or(d, "hba1c", 0.0))
           == MultiDisease.Hba1cTier(MultiDisease.Or(dd, "hba1c", 0.0));
    assert MultiDisease.DiabetesFactors(d) == MultiDisease.DiabetesFactors(dd);
  }

  /**
   * The handler's kidney defaults never change the assessment: protein 15
   * and the fallback 0 both lie under 30, and GFR falls back to 100 either way.
   */
  lemma KidneyDefaultsAgree(p: PatientInput)
    ensures MultiDisease.CalculateKidneyRisk(KidneyInput(p))
            == MultiDisease.CalculateKidneyRisk(KidneyInputWithDefaults(p))
  {
    var k, kd := KidneyInput(p), KidneyInputWithDefaults(p);
    assert MultiDisease.Or(k, "creatinine", 0.0) == MultiDisease.Or(kd, "creatinine", 0.0);
    assert MultiDisease.Or(k, "bp", 0.0) == MultiDisease.Or(kd, "bp", 0.0);
    assert MultiDisease.Or(k, "gfr", 100.0) == MultiDisease.Or(kd, "gfr", 100.0);
    assert MultiDisease.ProteinTier(MultiDisease.Or(k, "protein_urine", 0.0))
           == MultiDisease.ProteinTier(MultiDisease.Or(kd, "protein_urine", 0.0));
    assert MultiDisease.KidneyFactors(k) == MultiDisease.KidneyFactors(kd);
  }

  /**
   * The handler's liver defaults never change the assessment: ALT 30, AST 25
   * and bilirubin 0.8 lie in the same no-points tiers as the fallback 0, and
   * albumin and platelets fall back to 4.0 and 250 either way.
   */
  lemma LiverDefaultsAgree(p: PatientInput)
    ensures MultiDisease.CalculateLiverRisk(LiverInput(p))
            == MultiDisease.CalculateLiverRisk(LiverInputWithDefaults(p))
  {
    var l, ld := LiverInput(p), LiverInputWithDefaults(p);
    assert MultiDisease.AltTier(MultiDisease.Or(l, "alt", 0.0))
           == MultiDisease.AltTier(MultiDisease.Or(ld, "alt", 0.0));
    assert MultiDisease.AstTier(MultiDisease.Or(l, "ast", 0.0))
           == MultiDisease.AstTier(MultiDisease.Or(ld, "ast", 0.0));
    assert MultiDisease.BilirubinTier(MultiDisease.Or(l, "bilirubin", 0.0))
           == MultiDisease.BilirubinTier(MultiDisease.Or(ld, "bilirubin", 0.0));
    assert MultiDisease.Or(l, "albumin", 4.0) == MultiDisease.Or(ld, "albumin", 4.0);
    assert MultiDisease.Or(l, "platelet_count", 250.0) == MultiDisease.Or(ld, "platelet_count", 250.0);
    assert MultiDisease.LiverFactors(l) == MultiDisease.LiverFactors(ld);
  }

  /** The diabetes calculator reads the 0/1 glucose flag as 0 or 120 mg/dL. */
  lemma DiabetesGlucoseIsFlagTimes120(p: PatientInput)
    ensures MultiDisease.Or(DiabetesInput(p), "glucose", 0.0) == (p.glucose * 120) as real
  {
  }

  /**
   * The hypertension calculator's input as the handler intends it: an
   * unsupplied systolic pressure falls back to `bp`, and an unsupplied
   * diastolic pressure to the estimate `int(bp * 0.67)`.
   */
  function HypertensionInput(p: PatientInput): (d: MultiDisease.Patient)
    ensures "diastolic_bp" in d && "systolic_bp" in d
    ensures p.diastolicBp.None? ==> d["diastolic_bp"] == Truncate(p.bp * 0.67) as real
    ensures p.diastolicBp.Some? ==> d["diastolic_bp"] == p.diastolicBp.value as real
    ensures d["systolic_bp"] == if p.systolicBp.Some? then p.systolicBp.value as real else p.bp
  {
    map["systolic_bp" := OrDefault(p.systolicBp, 0) as real,
        "diastolic_bp" := OrDefault(p.diastolicBp, Truncate(p.bp * 0.67)) as real,
        "age" := p.age, "bmi" := p.bmi, "bp" := p.bp]
    + (if p.systolicBp.None? then map["systolic_bp" := p.bp] else map[])
  }

  /**
   * The hypertension input as written: `model_dump()` always contains the
   * keys "systolic_bp" and "diastolic_bp" (None when not supplied), so the
   * `.get` defaults are never taken and an unsupplied diastolic pressure
   * reaches the calculator as None.
   */
  function HypertensionInputAsWritten(p: PatientInput): (d: MultiDisease.Patient)
    ensures p.diastolicBp.None? ==> "diastolic_bp" !in d
  {
    var dumped := map["age" := p.age, "bmi" := p.bmi, "bp" := p.bp];
    Dumped(Dumped(dumped, "systolic_bp", IntAsReal(p.systolicBp)), "diastolic_bp", IntAsReal(p.diastolicBp))
  }

  /**
   * The patients the diastolic estimate matters for: under 45, BMI under 25,
   * blood pressure in [140, 179), and no systolic or diastolic reading.
   */
  predicate StageTwoWithoutReadings(p: PatientInput)
  {
    && p.diastolicBp.None? && p.systolicBp.None?
    && 0.0 < p.age < 45.0 && 0.0 < p.bmi < 25.0 && 140.0 <= p.bp < 179.0
  }

  lemma FactorsAsWritten(p: PatientInput)
    requires StageTwoWithoutReadings(p)
    ensures MultiDisease.HypertensionFactors(HypertensionInputAsWritten(p))
            == [Factor("Stage 2 Hypertension", 30.0, "High")]
  {
    var written := HypertensionInputAsWritten(p);
    assert written == map["age" := p.age, "bmi" := p.bmi, "bp" := p.bp];
    assert MultiDisease.Systolic(written) == p.bp;
    assert MultiDisease.Or(written, "diastolic_bp", 0.0) == 0.0;
    assert MultiDisease.Or(written, "bmi", 0.0) == p.bmi;
    assert MultiDisease.Or(written, "age", 0.0) == p.age;
  }

  lemma FactorsIntended(p: PatientInput)
    requires StageTwoWithoutReadings(p)
    ensures MultiDisease.HypertensionFactors(HypertensionInput(p))
            == [Factor("Stage 2 Hypertension", 30.0, "High"), Factor("High Diastolic BP", 20.0, "High")]
  {
    var intended := HypertensionInput(p);
    var estimate := Truncate(p.bp * 0.67);
    assert 93.8 <= p.bp * 0.67 < 119.93;
    assert 93 <= estimate <= 119;
    assert MultiDisease.Systolic(intended) == p.bp;
    assert MultiDisease.Or(intended, "diastolic_bp", 0.0) == estimate as real;
    assert MultiDisease.Or(intended, "bmi", 0.0) == p.bmi;
    assert MultiDisease.Or(intended, "age", 0.0) == p.age;
  }

  /**
   * As written, every such patient (bp 150, say) gets no diastolic points
   * and a Moderate hypertension category; with the estimate, int(150 * 0.67)
   * = 100, the diastolic tier adds 20 points and the category is High.
   */
  lemma DiastolicEstimateIgnored(p: PatientInput)
    requires StageTwoWithoutReadings(p)
    ensures MultiDisease.CalculateHypertensionRisk(HypertensionInputAsWritten(p)).riskScore == 30.0
    ensures MultiDisease.CalculateHypertensionRisk(HypertensionInputAsWritten(p)).riskCategory == "Moderate"
    ensures MultiDisease.CalculateHypertensionRisk(HypertensionInput(p)).riskScore == 50.0
    ensures MultiDisease.CalculateHypertensionRisk(HypertensionInput(p)).riskCategory == "High"
  {
    ScoreAsWritten(p);
    ScoreIntended(p);
  }

  lemma ScoreAsWritten(p: PatientInput)
    requires StageTwoWithoutReadings(p)
    ensures var r := MultiDisease.CalculateHypertensionRisk(HypertensionInputAsWritten(p));
            r.riskScore == 30.0 && r.riskCategory == "Moderate"
  {
    FactorsAsWritten(p);
    HypertensionScoredByFactors(HypertensionInputAsWritten(p), [Factor("Stage 2 Hypertension", 30.0, "High")], 30.0);
  }

  lemma ScoreIntended(p: PatientInput)
    requires StageTwoWithoutReadings(p)
    ensures var r := MultiDisease.CalculateHypertensionRisk(HypertensionInput(p));
            r.riskScore == 50.0 && r.riskCategory == "High"
  {
    var stage2 := Factor("Stage 2 Hypertension", 30.0, "High");
    var diastolic := Factor("High Diastolic BP", 20.0, "High");
    FactorsIntended(p);
    assert [stage2, diastolic][1..] == [diastolic];
    assert SumPoints([diastolic]) == 20.0;
    assert SumPoints([stage2, diastolic]) == 50.0;
    HypertensionScoredByFactors(HypertensionInput(p), [stage2, diastolic], 50.0);
  }

  lemma HypertensionScoredByFactors(d: MultiDisease.Patient, factors: seq<Factor>, total: real)
    requires MultiDisease.HypertensionFactors(d) == factors && SumPoints(factors) == total
    ensures MultiDisease.CalculateHypertensionRisk(d).riskScore == total
    ensures MultiDisease.CalculateHypertensionRisk(d).riskCategory == MultiDisease.RiskCategory(total)
  {
  }

  /**
   * With the estimate in place, a patient whose blood pressure passed
   * validation (at least 60) and who supplied no diastolic reading is scored
   * on the estimate, which is never 0 and so never replaced by the
   * calculator's own default.
   */
  lemma DiastolicEstimateUsed(p: PatientInput)
    requires p.diastolicBp.None? && p.bp >= 60.0
    ensures MultiDisease.Or(HypertensionInput(p), "diastolic_bp", 0.0) == Truncate(p.bp * 0.67) as real
    ensures Truncate(p.bp * 0.67) >= 40
  {
  }

  /** The four multi-disease assessments of one patient. */
  datatype DiseaseRisks = DiseaseRisks(
    diabetes: MultiDisease.DiseaseRisk, kidney: MultiDisease.DiseaseRisk,
    liver: MultiDisease.DiseaseRisk, hypertension: MultiDisease.DiseaseRisk)

  function MultiDiseaseRisks(p: PatientInput): DiseaseRisks
  {
    DiseaseRisks(
      MultiDisease.CalculateDiabetesRisk(DiabetesInput(p)),
      MultiDisease.CalculateKidneyRisk(KidneyInput(p)),
      MultiDisease.CalculateLiverRisk(LiverInput(p)),
      MultiDisease.CalculateHypertensionRisk(HypertensionInput(p)))
  }

  /**
   * The handler's multi-disease block: each calculator runs on the input
   * assembled for it, and the four results are collected one by one. The
   * diabetes, kidney and liver inputs are read as written; hypertension is
   * scored on the corrected input, with the diastolic estimate in place.
   */
  method AssessDiseases(p: PatientInput) returns (risks: DiseaseRisks)
    ensures risks == MultiDiseaseRisks(p)
  {
    var diabetes := MultiDisease.CalculateDiabetesRisk(DiabetesInput(p));
    var kidney := MultiDisease.CalculateKidneyRisk(KidneyInput(p));
    var liver := MultiDisease.CalculateLiverRisk(LiverInput(p));
    var hypertension := MultiDisease.CalculateHypertensionRisk(HypertensionInput(p));
    risks := DiseaseRisks(diabetes, kidney, liver, hypertension);
  }

  /** What `predict_risk` returns; the explanation is left to the risk model. */
  datatype Prediction = Prediction(
    riskScore: real, riskCategory: string, recommendation: string, topFactors: seq<Factor>,
    forecast: seq<ForecastDay>, multiDiseaseRisks: DiseaseRisks, timestamp: string)

  /** The validation message `predict_risk` refuses a request with, if any. */
  function RequestError(p: PatientInput): Option<string>
  {
    FirstFailure(ToRequest(p), Rules())
  }

  /**
   * The answer to a valid request: the clamped score with its category and
   * strongest factors, the advice for them, the four multi-disease
   * assessments, and a forecast that starts from the score.
   */
  ghost predicate Answers(p: PatientInput, variations: seq<real>, now: string, prediction: Prediction)
  {
    var result := CalculateRiskScore(VitalsOf(p));
    && prediction == Prediction(result.riskScore, result.riskCategory,
                                Recommendation(result.riskScore, result.topFactors), result.topFactors,
                                prediction.forecast, MultiDiseaseRisks(p), now)
    && Follows(prediction.forecast, result.riskScore, variations)
  }

  /** A refusal with the first validation message, or the answer to a valid request. */
  ghost predicate Handles(p: PatientInput, variations: seq<real>, now: string, r: Result<Prediction>)
  {
    match r
    case Err(message) => RequestError(p) == Some(message)
    case Ok(prediction) => RequestError(p).None? && Answers(p, variations, now, prediction)
  }

  /** `validate_input` on the dumped request body. */
  method Validate(p: PatientInput) returns (error: Option<string>)
    ensures error == RequestError(p)
  {
    var valid, message := ValidateInput(ToRequest(p));
    error := if valid then None else Some(message);
  }

  /** The valid-request branch of `predict_risk`, up to the logging. */
  method Respond(p: PatientInput, variations: seq<real>, now: string) returns (prediction: Prediction)
    ensures Answers(p, variations, now, prediction)
  {
    var result := CalculateRiskScore(VitalsOf(p));
    var risks := AssessDiseases(p);
    var recommendation := Recommendation(result.riskScore, result.topFactors);
    var forecast := ForecastDays(result.riskScore, variations);
    prediction := Prediction(result.riskScore, result.riskCategory, recommendation, result.topFactors,
                             forecast, risks, now);
  }

  /** `predict_risk` up to the logging: validate, then answer. */
  method Predict(p: PatientInput, variations: seq<real>, now: string) returns (r: Result<Prediction>)
    ensures Handles(p, variations, now, r)
  {
    var error := Validate(p);
    if error.Some? {
      return Err(error.value);
    }
    var prediction := Respond(p, variations, now);
    return Ok(prediction);
  }

  datatype LogEntry = LogEntry(timestamp: string, riskScore: real, category: string)

  /** `logs[-10:]`: the most recent entries, at most ten, oldest first. */
  function LastTen(logs: seq<LogEntry>): (r: seq<LogEntry>)
    ensures |r| == if |logs| < 10 then |logs| else 10
    ensures r == logs[|logs| - |r|..]
  {
    if |logs| < 10 then logs else logs[|logs| - 10..]
  }

  /**
   * Logging one more prediction puts it last in the recent view; once ten
   * entries are shown, the oldest one shown drops out.
   */
  lemma LastTenAfterAppend(logs: seq<LogEntry>, e: LogEntry)
    ensures LastTen(logs + [e]) == (if |logs| < 10 then LastTen(logs) else LastTen(logs)[1..]) + [e]
  {
    var r := LastTen(logs + [e]);
    if |logs| >= 10 {
      assert r == logs[|logs| - 9..] + [e];
    }
  }

  /** The entry `predict_risk` logs: one for an answered request, none for a refused one. */
  function Logged(now: string, r: Result<Prediction>): (entries: seq<LogEntry>)
    ensures r.Err? ==> entries == []
    ensures r.Ok? ==> entries == [LogEntry(now, r.value.riskScore, r.value.riskCategory)]
  {
    if r.Ok? then [LogEntry(now, r.value.riskScore, r.value.riskCategory)] else []
  }

  /** The process-wide state of the API: the list of logged predictions. */
  class Backend {
    var predictionLogs: seq<LogEntry>

    constructor ()
      ensures predictionLogs == []
    {
      predictionLogs := [];
    }

    /**
     * `predict_risk`: an invalid request is refused with the first
     * validation message and logs nothing; a valid one is answered and its
     * score and category are logged.
     */
    method PredictRisk(p: PatientInput, variations: seq<real>, now: string) returns (r: Result<Prediction>)
      requires |variations| == 20
      modifies this
      ensures Handles(p, variations, now, r)
      ensures predictionLogs == old(predictionLogs) + Logged(now, r)
    {
      r := Predict(p, variations, now);
      predictionLogs := predictionLogs + Logged(now, r);
    }

    /** `get_logs`: the last ten logged predictions, in logging order. */
    function GetLogs(): (r: seq<LogEntry>)
      reads this
      ensures r == LastTen(predictionLogs)
      ensures |r| <= 10 && forall i :: 0 <= i < |r| ==> r[i] in predictionLogs
    {
      LastTen(predictionLogs)
    }
  }
}
