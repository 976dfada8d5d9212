/**
 * The patient and dashboard endpoints (backend/routes/patients.py), on top
 * of the in-memory patient store. The uuid drawn for a new record, the
 * forecast's random draws and the clock are parameters; the response dates
 * and the rounding of the average are left out.
 */
module PatientsRoutes {
  import opened Wrappers
  import opened Sorting
  import opened Stats
  import opened Forecasting
  import opened PatientsStore

  /** The risk scores of the records, in order. */
  function ScoresOf(patients: seq<PatientRecord>): (r: seq<real>)
    ensures |r| == |patients|
    ensures forall i :: 0 <= i < |r| ==> r[i] == patients[i].riskScore
  {
    if patients == [] then [] else [patients[0].riskScore] + ScoresOf(patients[1..])
  }

  /** The high-risk test of these endpoints: a score of at least 60, whatever the category. */
  function AtLeast60(): real -> bool { s => s >= 60.0 }

  datatype PatientsPage = PatientsPage(patients: seq<PatientRecord>, total: nat, highRiskCount: nat)

  /**
   * `get_patients`: every stored record, newest first, with their number
   * and the number whose score is at least 60.
   */
  function GetPatients(store: PatientStore): (r: PatientsPage)
    reads store
    ensures r.patients == store.GetAllPatients()
    ensures multiset(r.patients) == multiset(store.patients)
    ensures forall i, j :: 0 <= i < j < |r.patients| ==> LexLe(r.patients[j].timestamp, r.patients[i].timestamp)
    ensures r.total == |store.patients|
    ensures r.highRiskCount == CountWhere(ScoresOf(r.patients), AtLeast60())
    ensures r.highRiskCount <= r.total
  {
    var all := store.GetAllPatients();
    assert |all| == |multiset(all)| == |multiset(store.patients)| == |store.patients|;
    PatientsPage(all, |all|, CountWhere(ScoresOf(all), AtLeast60()))
  }

  /** `get_patient`: the stored record with the id, or the not-found error. */
  method GetPatient(store: PatientStore, id: string) returns (r: Result<PatientRecord>)
    ensures FirstIndex(store.patients, id).None? <==> r == Err("Patient not found")
    ensures FirstIndex(store.patients, id).Some? ==>
              r == Ok(store.patients[FirstIndex(store.patients, id).value])
  {
    var found := store.GetPatientById(id);
    if found.None? {
      return Err("Patient not found");
    }
    return Ok(found.value);
  }

  /** The body of a create request: a record whose id may be missing. */
  datatype Payload = Payload(
    id: Option<string>, name: string, riskScore: real, riskCategory: string,
    timestamp: string, otherFields: map<string, string>)

  /** The record a payload becomes: its own id when it has one, else the generated one. */
  function ToRecord(payload: Payload, generatedId: string): (r: PatientRecord)
    ensures payload.id.Some? ==> r.id == payload.id.value
    ensures payload.id.None? ==> r.id == generatedId
    ensures r.name == payload.name && r.riskScore == payload.riskScore
    ensures r.riskCategory == payload.riskCategory && r.timestamp == payload.timestamp
  {
    PatientRecord(if payload.id.Some? then payload.id.value else generatedId,
                  payload.name, payload.riskScore, payload.riskCategory, payload.timestamp,
                  payload.otherFields)
  }

  datatype Created = Created(success: bool, patientId: string, message: string)

  /**
   * `create_patient`: an id is generated only when the payload has none
   * (`generatedId` stands for the first eight characters of a fresh uuid4),
   * the record is appended to the store, and its id is reported.
   */
  method CreatePatient(store: PatientStore, payload: Payload, generatedId: string) returns (r: Created)
    modifies store
    ensures store.patients == old(store.patients) + [ToRecord(payload, generatedId)]
    ensures r == Created(true, ToRecord(payload, generatedId).id, "Patient record saved successfully")
  {
    var record := ToRecord(payload, generatedId);
    var added := store.AddPatient(record);
    return Created(true, added.id, "Patient record saved successfully");
  }

  datatype DashboardStats = DashboardStats(
    totalPatients: nat, highRiskCount: nat, averageRisk: real, recentPatient: Option<PatientRecord>)

  /**
   * `get_dashboard_stats`: the number of records, how many score at least
   * 60 (never more than the total), the mean score or 0 without records,
   * and the first record of the newest-first list, which is None exactly
   * when the store is empty and is no older than any other record.
   */
  function GetDashboardStats(store: PatientStore): (r: DashboardStats)
    reads store
    ensures r.totalPatients == |store.patients|
    ensures r.highRiskCount == CountWhere(ScoresOf(store.GetAllPatients()), AtLeast60())
    ensures r.highRiskCount <= r.totalPatients
    ensures r.averageRisk == MeanOrZero(ScoresOf(store.GetAllPatients()))
    ensures store.patients == [] ==> r.averageRisk == 0.0
    ensures r.recentPatient.None? <==> store.patients == []
    ensures store.patients != [] ==> r.recentPatient == Some(store.GetAllPatients()[0])
    ensures r.recentPatient.Some? ==>
              && r.recentPatient.value in store.patients
              && forall q :: q in store.patients ==> LexLe(q.timestamp, r.recentPatient.value.timestamp)
  {
    var all := store.GetAllPatients();
    assert |all| == |multiset(all)| == |multiset(store.patients)| == |store.patients|;
    var recent := if all == [] then None else Some(all[0]);
    if all == [] then DashboardStats(0, 0, 0.0, None)
    else
      assert all[0] in multiset(store.patients);
      assert forall q :: q in store.patients ==> LexLe(q.timestamp, all[0].timestamp) by {
        forall q | q in store.patients ensures LexLe(q.timestamp, all[0].timestamp) {
          assert q in multiset(all);
          var j :| 0 <= j < |all| && all[j] == q;
          if j > 0 {
            assert LexLe(all[j].timestamp, all[0].timestamp);
          } else {
            LexLeTotal(q.timestamp, q.timestamp);
          }
        }
      }
      DashboardStats(|all|, CountWhere(ScoresOf(all), AtLeast60()), MeanOrZero(ScoresOf(all)), recent)
  }

  /** The mean score of a non-empty store lies between the lowest and the highest score. */
  lemma AverageWithinScores(store: PatientStore, lo: real, hi: real)
    requires store.patients != []
    requires forall p :: p in store.patients ==> lo <= p.riskScore <= hi
    ensures lo <= GetDashboardStats(store).averageRisk <= hi
  {
    var all := store.GetAllPatients();
    var scores := ScoresOf(all);
    assert |all| == |multiset(all)| == |multiset(store.patients)|;
    forall i | 0 <= i < |scores| ensures lo <= scores[i] <= hi {
      assert all[i] in multiset(all);
    }
    MeanWithin(scores, lo, hi);
  }

  datatype PatientForecast = PatientForecast(
    patientId: string, patientName: string, currentRisk: real, forecast: seq<ForecastDay>)

  /**
   * `get_risk_forecast`: the not-found error for an unknown id; otherwise
   * one forecast day per draw, starting from the stored score.
   */
  method GetRiskForecast(store: PatientStore, id: string, variations: seq<real>) returns (r: Result<PatientForecast>)
    requires |variations| == 20
    ensures FirstIndex(store.patients, id).None? <==> r == Err("Patient not found")
    ensures FirstIndex(store.patients, id).Some? ==>
              var patient := store.patients[FirstIndex(store.patients, id).value];
              && r.Ok?
              && r.value.patientId == id && r.value.patientName == patient.name
              && r.value.currentRisk == patient.riskScore
              && Follows(r.value.forecast, patient.riskScore, variations)
  {
    var found := store.GetPatientById(id);
    if found.None? {
      return Err("Patient not found");
    }
    var patient := found.value;
    var forecast := ForecastDays(patient.riskScore, variations);
    return Ok(PatientForecast(id, patient.name, patient.riskScore, forecast));
  }
}
