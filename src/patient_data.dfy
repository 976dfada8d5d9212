/**
 * Patient records as the predictors read them: a dictionary from field name
 * to number. A key that is absent stands for both a missing key and a key
 * whose value is `None`.
 */
module PatientData {

  type Patient = map<string, real>

  /** `data.get(key, default)`. */
  function Get(data: Patient, key: string, default: real): real
  {
    if key in data then data[key] else default
  }
}
