/**
 * The in-memory list of saved patient records (backend/data/patients_store.py).
 *
 * A record keeps the fields the store and its callers branch on (id, risk
 * score and category, timestamp) and carries the rest as a map from field
 * name to value. Timestamps are ISO-8601 strings, compared as strings.
 */
module PatientsStore {
  import opened Wrappers
  import opened Sorting

  datatype PatientRecord = PatientRecord(
    id: string,
    name: string,
    riskScore: real,
    riskCategory: string,
    timestamp: string,
    otherFields: map<string, string>)

  /** The fields an update may carry; `None` leaves a field as it is. */
  datatype PatientUpdate = PatientUpdate(
    id: Option<string>,
    name: Option<string>,
    riskScore: Option<real>,
    riskCategory: Option<string>,
    timestamp: Option<string>,
    otherFields: map<string, string>)

  function Pick<T>(update: Option<T>, current: T): T
  {
    if update.Some? then update.value else current
  }

  /** `patient.dict()` followed by `.update(updates)`: a field given in the update wins. */
  function Merge(p: PatientRecord, u: PatientUpdate): (r: PatientRecord)
    ensures u.id.None? ==> r.id == p.id
    ensures u.riskCategory.None? ==> r.riskCategory == p.riskCategory
    ensures r.otherFields.Keys == p.otherFields.Keys + u.otherFields.Keys
    ensures forall k :: k in u.otherFields ==> r.otherFields[k] == u.otherFields[k]
    ensures forall k :: k in p.otherFields && k !in u.otherFields ==> r.otherFields[k] == p.otherFields[k]
  {
    PatientRecord(
      Pick(u.id, p.id), Pick(u.name, p.name), Pick(u.riskScore, p.riskScore),
      Pick(u.riskCategory, p.riskCategory), Pick(u.timestamp, p.timestamp),
      p.otherFields + u.otherFields)
  }

  /** Index of the first record with the id, if any. */
  function FirstIndex(patients: seq<PatientRecord>, id: string): (r: Option<nat>)
    ensures r.None? <==> forall i :: 0 <= i < |patients| ==> patients[i].id != id
    ensures r.Some? ==> r.value < |patients| && patients[r.value].id == id
                        && forall i :: 0 <= i < r.value ==> patients[i].id != id
  {
    if patients == [] then None
    else if patients[0].id == id then Some(0)
    else
      var rest := FirstIndex(patients[1..], id);
      if rest.None? then None else Some(rest.value + 1)
  }

  /** Most recent first: `a` may precede `b` when its timestamp is not smaller. */
  function NewestFirst(): (before: (PatientRecord, PatientRecord) -> bool)
    ensures TotalPreorder(before)
    ensures forall a, b :: before(a, b) <==> LexLe(b.timestamp, a.timestamp)
  {
    var before := (a: PatientRecord, b: PatientRecord) => LexLe(b.timestamp, a.timestamp);
    assert forall a, b :: before(a, b) || before(b, a) by {
      forall a, b ensures before(a, b) || before(b, a) { LexLeTotal(a.timestamp, b.timestamp); }
    }
    assert forall a, b, c :: before(a, b) && before(b, c) ==> before(a, c) by {
      forall a, b, c | before(a, b) && before(b, c) ensures before(a, c) {
        LexLeTransitive(c.timestamp, b.timestamp, a.timestamp);
      }
    }
    before
  }
  /** The records stamped exactly `t`. */
  function Stamped(t: string): PatientRecord -> bool
  {
    (p: PatientRecord) => p.timestamp == t
  }

  /** The newest-first sort is stable: records with the same timestamp keep their store order. */
  lemma NewestFirstKeepsTies(patients: seq<PatientRecord>, t: string)
    ensures Filter(Sort(patients, NewestFirst()), Stamped(t)) == Filter(patients, Stamped(t))
  {
    var k := PatientRecord("", "", 0.0, "", t, map[]);
    var tied := Tied(NewestFirst(), k);
    forall p ensures tied(p) == Stamped(t)(p) {
      if tied(p) {
        LexLeAntisymmetric(p.timestamp, t);
      } else {
        LexLeTotal(t, t);
      }
    }
    SortStable(patients, NewestFirst(), k);
    FilterSame(Sort(patients, NewestFirst()), tied, Stamped(t));
    FilterSame(patients, tied, Stamped(t));
  }


  predicate IsHighRisk(p: PatientRecord)
  {
    p.riskCategory == "High" || p.riskCategory == "Critical"
  }

  /** The records with category High or Critical, in store order. */
  function HighRisk(patients: seq<PatientRecord>): (r: seq<PatientRecord>)
    ensures forall i :: 0 <= i < |r| ==> IsHighRisk(r[i])
    ensures forall p :: p in patients && IsHighRisk(p) ==> p in r
    ensures multiset(r) <= multiset(patients)
  {
    if patients == [] then []
    else
      assert patients == [patients[0]] + patients[1..];
      (if IsHighRisk(patients[0]) then [patients[0]] else []) + HighRisk(patients[1..])
  }

  /** The filter keeps every high-risk record as often as it occurs and drops every other. */
  lemma {:induction false} HighRiskCounts(patients: seq<PatientRecord>, p: PatientRecord)
    ensures multiset(HighRisk(patients))[p] == if IsHighRisk(p) then multiset(patients)[p] else 0
  {
    if patients != [] {
      assert patients == [patients[0]] + patients[1..];
      HighRiskCounts(patients[1..], p);
    }
  }

  /**
   * The filter keeps store order: filtering two runs of records one after
   * the other is filtering each run and concatenating the results.
   */
  lemma {:induction false} HighRiskKeepsOrder(a: seq<PatientRecord>, b: seq<PatientRecord>)
    ensures HighRisk(a + b) == HighRisk(a) + HighRisk(b)
  {
    if a == [] {
      assert a + b == b;
    } else {
      assert (a + b)[0] == a[0];
      assert (a + b)[1..] == a[1..] + b;
      HighRiskKeepsOrder(a[1..], b);
    }
  }

  class PatientStore {
    var patients: seq<PatientRecord>

    constructor ()
      ensures patients == []
    {
      patients := [];
    }

    method AddPatient(patient: PatientRecord) returns (added: PatientRecord)
      modifies this
      ensures patients == old(patients) + [patient]
      ensures added == patient
      ensures GetPatientCount() == old(GetPatientCount()) + 1
    {
      patients := patients + [patient];
      added := patient;
    }

    /** A copy sorted by timestamp, newest first; equal timestamps keep store order. */
    function GetAllPatients(): (r: seq<PatientRecord>)
      reads this
      ensures multiset(r) == multiset(patients)
      ensures forall i, j :: 0 <= i < j < |r| ==> LexLe(r[j].timestamp, r[i].timestamp)
      ensures forall t :: Filter(r, Stamped(t)) == Filter(patients, Stamped(t))
    {
      SortSorted(patients, NewestFirst());
      forall t ensures Filter(Sort(patients, NewestFirst()), Stamped(t)) == Filter(patients, Stamped(t)) {
        NewestFirstKeepsTies(patients, t);
      }
      Sort(patients, NewestFirst())
    }

    method GetPatientById(id: string) returns (r: Option<PatientRecord>)
      ensures FirstIndex(patients, id).None? ==> r.None?
      ensures FirstIndex(patients, id).Some? ==> r == Some(patients[FirstIndex(patients, id).value])
    {
      for i := 0 to |patients|
        invariant forall j :: 0 <= j < i ==> patients[j].id != id
      {
        if patients[i].id == id {
          return Some(patients[i]);
        }
      }
      return None;
    }

    /** Replaces the first record with the id by its merge with the update, in place. */
    method UpdatePatient(id: string, updates: PatientUpdate) returns (r: Option<PatientRecord>)
      modifies this
      ensures FirstIndex(old(patients), id).None? ==> r.None? && patients == old(patients)
      ensures FirstIndex(old(patients), id).Some? ==>
                var i := FirstIndex(old(patients), id).value;
                && r == Some(Merge(old(patients)[i], updates))
                && patients == old(patients)[i := Merge(old(patients)[i], updates)]
    {
      for i := 0 to |patients|
        invariant forall j :: 0 <= j < i ==> patients[j].id != id
        invariant patients == old(patients)
      {
        if patients[i].id == id {
          patients := patients[i := Merge(patients[i], updates)];
          return Some(patients[i]);
        }
      }
      return None;
    }

    /** Removes the first record with the id; later records move up by one. */
    method DeletePatient(id: string) returns (deleted: bool)
      modifies this
      ensures deleted <==> FirstIndex(old(patients), id).Some?
      ensures !deleted ==> patients == old(patients)
      ensures deleted ==> var i := FirstIndex(old(patients), id).value;
                          patients == old(patients)[..i] + old(patients)[i + 1..]
      ensures deleted ==> |patients| == |old(patients)| - 1
    {
      for i := 0 to |patients|
        invariant forall j :: 0 <= j < i ==> patients[j].id != id
        invariant patients == old(patients)
      {
        if patients[i].id == id {
          patients := patients[..i] + patients[i + 1..];
          return true;
        }
      }
      return false;
    }

    function GetPatientCount(): (n: nat)
      reads this
      ensures n == |patients|
    {
      |patients|
    }

    function GetHighRiskPatients(): (r: seq<PatientRecord>)
      reads this
      ensures forall p :: multiset(r)[p] == if IsHighRisk(p) then multiset(patients)[p] else 0
      ensures r == HighRisk(patients)
    {
      forall p ensures multiset(HighRisk(patients))[p] == if IsHighRisk(p) then multiset(patients)[p] else 0 {
        HighRiskCounts(patients, p);
      }
      HighRisk(patients)
    }
  }
}
