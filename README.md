# ChainFL-Care core, modelled in Dafny

ChainFL-Care is a hospital-network demo for cardiac and multi-disease risk
prediction, with federated learning and blockchain-backed consent. Its
backend is a FastAPI service. It scores patients with several rule-based
point systems, keeps prediction logs, patient records, consent and
node registrations in memory, and guards consent with one-time e-mail
codes. It also simulates federated-learning rounds across hospitals. The
React front end keeps an activity log, uploads CSV batches, registers
hospital nodes and draws the prediction result.

This project models that logic in Dafny, one module per source file:

| module | source file |
|---|---|
| `Otp` | backend/utils/otp_service.py |
| `FLSimulation` | backend/services/fl_simulation_service.py |
| `MultiDisease` | backend/utils/multi_disease.py |
| `Preprocessing` | backend/utils/preprocessing.py |
| `BlockchainStorage` | backend/blockchain/storage.py |
| `PatientsStore` | backend/data/patients_store.py |
| `Hospitals` | backend/data/legitimate_hospitals.py |
| `DeepSeek` | backend/services/deepseek_predictor.py |
| `Gemini` | backend/services/gemini_predictor.py |
| `MLModel` | backend/services/ml_model.py |
| `RiskModel` | backend/models/risk_model.py |
| `Api` | backend/main.py |
| `PatientsRoutes` | backend/routes/patients.py |
| `ActivityLog` | frontend/src/context/ActivityLogContext.jsx |
| `CsvUpload` | frontend/src/components/prediction/CSVUpload.jsx |
| `NodeRegistry` | frontend/src/pages/NodeRegistry.jsx |
| `PredictionView` | frontend/src/components/prediction/PredictionResult.jsx |

Some modules are shared:
- `Wrappers` holds `Option` and `Result`.
- `Text` holds ASCII case mapping, whitespace stripping, substring search and joining.
- `Sorting` is a stable insertion sort by a total preorder, string order, and
  the list filter `[x for x in s if p(x)]`.
- `Factors` is a scored risk factor and the "three highest first" selection.
- `Stats` holds sum, mean, count, maximum and minimum.
- `Forecasting` is the clamped day-by-day forecast used by two handlers.
- `PatientData` is `dict.get(key, default)`.

State the source changes in place is a `class`:
- the OTP store, the FL service, the consent and node storage;
- the patient list, the cardiac model's trained flag and the prediction log;
- the front end's activity log, upload panel and node registry form.

Scoring code that only computes is written as functions, each with lemmas
about it. Loops in the source are methods with invariants, proved against
those functions: OTP cleanup, input validation, hospital lookup, the
district index, top-factor padding, the forecast loop and the CSV row loop.

Clocks, random draws, the e-mail server, the language models, scikit-learn,
SHAP, pickle files, HTTP and CSV parsing are all parameters. Each method
takes what such a call would have returned: a time, a list of draws, a
parsed table, a fitted coefficient vector or a server response.

The training page only runs a timer, and the consent page grants consent
without checking a code. The model therefore covers the backend OTP store
and the backend FL round bookkeeping.

## Model

| member | source | states |
|---|---|---|
| Otp.GenerateOtp | backend/utils/otp_service.py:17-24 | the code has exactly 6 characters, each a decimal digit, and digit i is the i-th draw |
| Otp.GenerateOtpInjective | backend/utils/otp_service.py:22-24 | the digits can be read back from the code, so different draws give different codes |
| Otp.NewEntry | backend/utils/otp_service.py:46-55 | a new entry holds the code, 0 attempts, and an expiry 5 minutes after issue |
| Otp.VerifyStep | backend/utils/otp_service.py:190-220 | an unknown email fails with "No OTP found" and changes nothing; success holds exactly when the entry exists, is not past its expiry, has attempts left and the code matches; a strictly expired entry is reported expired; a wrong code raises the attempt count and keeps the entry until attempts run out; every other outcome deletes the entry; other emails are never touched |
| Otp.VerifyKeepsConsistent | backend/utils/otp_service.py:201-203 | verification keeps every stored entry below 3 attempts with expiry = creation + 5 minutes, so "too many attempts" is never reported on a consistent store |
| Otp.VerifiedOnlyOnce | backend/utils/otp_service.py:206-210 | after a successful verification the same code fails with "No OTP found" at any later time |
| Otp.AcceptedAtExpiry | backend/utils/otp_service.py:196-198 | the right code is accepted at exactly the expiry instant and reported expired one microsecond later |
| Otp.ReissueInvalidatesOldCode | backend/utils/otp_service.py:46-55 | after a new code is issued, the previous code is rejected as invalid with 2 attempts remaining |
| Otp.ThreeWrongCodesExhaust | backend/utils/otp_service.py:212-220 | three wrong codes in a row report 2, 1 and then 0 attempts remaining, and the third one deletes the entry |
| Otp.Unexpired | backend/utils/otp_service.py:226-233 | keeps exactly the entries whose expiry is not past, unchanged |
| Otp.ExpiredEmails | backend/utils/otp_service.py:226-230 | is exactly the set of emails whose entry is strictly past its expiry |
| Otp.WholeSecondsLeft | backend/utils/otp_service.py:252-259 | is 0 once the expiry is reached, otherwise the whole seconds left, truncated |
| Otp.OtpStore.Issue | backend/utils/otp_service.py:45-55 | returns the generated code and overwrites the email's entry with a fresh one; other entries are kept |
| Otp.OtpStore.Verify | backend/utils/otp_service.py:178-220 | the result, message and new store are those of `VerifyStep` on the old store, and the store invariant is kept |
| Otp.OtpStore.CleanupExpired | backend/utils/otp_service.py:223-235 | the loop removes exactly the expired entries and returns how many it removed |
| Otp.OtpStore.GetStatus | backend/utils/otp_service.py:248-262 | None exactly for unknown emails; otherwise attempts remaining = 3 - attempts (between 1 and 3 in a valid store) and the whole seconds left |
| FLSimulation.InitialMetrics | backend/services/fl_simulation_service.py:13-17 | the starting accuracy lies in [0.76, 0.78], the loss in [0.45, 0.51], and all metrics are under their caps |
| FLSimulation.CalculateImprovement | backend/services/fl_simulation_service.py:22-50 | the accuracy gain is clamped to [0.005, 0.035] and the loss reduction to [0.005, 0.04] whatever the noise; unclamped values pass through |
| FLSimulation.CalculateImprovementIsClamped | backend/services/fl_simulation_service.py:41-42 | every improvement the service computes is a clamped gain |
| FLSimulation.Capped | backend/services/fl_simulation_service.py:64-68 | the metric grows by the gain but never past its cap |
| FLSimulation.NextMetrics | backend/services/fl_simulation_service.py:64-68 | accuracy, f1, precision and recall never decrease and loss never increases; accuracy ≤ 0.965, loss ≥ 0.045, f1 ≤ 0.96, precision ≤ 0.97, recall ≤ 0.95 |
| FLSimulation.ConvergenceStatus | backend/services/fl_simulation_service.py:97 | "near_optimal" exactly when accuracy ≥ 0.94, "converging" otherwise |
| FLSimulation.Names | backend/services/fl_simulation_service.py:92 | the hospital names in selection order |
| FLSimulation.Locations | backend/services/fl_simulation_service.py:93 | one location per hospital, in selection order |
| FLSimulation.Run | backend/services/fl_simulation_service.py:52-102 | any number of rounds with clamped gains keeps the metrics under their caps |
| FLSimulation.RunProgress | backend/services/fl_simulation_service.py:41-64 | after n rounds the accuracy is at its cap or has grown by at least 0.005 per round; loss never grew |
| FLSimulation.RunStaysAtCap | backend/services/fl_simulation_service.py:64 | once accuracy reaches 0.965 it stays there |
| FLSimulation.FLSimulationService.constructor | backend/services/fl_simulation_service.py:11-20 | round 0, empty history, zero samples, initial metrics |
| FLSimulation.FLSimulationService.RunTrainingRound | backend/services/fl_simulation_service.py:52-102 | the round number grows by 1 and one record is appended whose round is the new round number; the metrics advance as `NextMetrics`; the sample total grows by hospitals × samples per hospital; the record carries the new metrics, the clamped improvements, that round's samples and the new total, the hospital count, their names and locations in order, the training time and the convergence status |
| FLSimulation.FLSimulationService.GetCurrentMetrics | backend/services/fl_simulation_service.py:104-115 | status "ready" exactly at round 0, "trained" after that, with the current metrics |
| FLSimulation.FLSimulationService.GetTrainingHistory | backend/services/fl_simulation_service.py:117-119 | one record per round, and record i has round i + 1 |
| FLSimulation.FLSimulationService.ResetSimulation | backend/services/fl_simulation_service.py:121-123 | back to round 0, empty history, zero samples and fresh initial metrics |
| MultiDisease.Or | backend/utils/multi_disease.py:27 | a present non-zero value is used, and a missing, None or 0 value takes the default |
| MultiDisease.RiskCategory | backend/utils/multi_disease.py:274-283 | Critical for ≥ 75, High for [50, 75), Moderate for [25, 50), Low below 25 |
| MultiDisease.BandedFollowsBand | backend/utils/multi_disease.py:286-331 | a choice by the 75/50/25 cut-offs depends only on the category |
| MultiDisease.GlucoseTier | backend/utils/multi_disease.py:27-36 | at most one factor, worth 40, 25 or 10 points |
| MultiDisease.Hba1cTier | backend/utils/multi_disease.py:39-45 | at most one factor, worth 30 or 15 points |
| MultiDisease.DiabetesBmiTier | backend/utils/multi_disease.py:48-54 | at most one factor, worth 20 or 10 points |
| MultiDisease.DiabetesAgeTier | backend/utils/multi_disease.py:57-61 | a factor exactly when age ≥ 45, worth min(10, (age - 45) // 5) points, even when that is 0 |
| MultiDisease.CalculateDiabetesRisk | backend/utils/multi_disease.py:11-68 | the score is the sum of the factor points, within [0, 100]; the category and recommendation follow the score; the top factors are the three highest |
| MultiDisease.CreatinineTier | backend/utils/multi_disease.py:88-97 | at most one factor, worth 35, 20 or 10 points |
| MultiDisease.GfrTier | backend/utils/multi_disease.py:100-109 | at most one factor, worth 35, 25 or 10 points; a missing GFR reads as 100 and adds nothing |
| MultiDisease.ProteinTier | backend/utils/multi_disease.py:112-118 | at most one factor, worth 20 or 10 points |
| MultiDisease.KidneyBpTier | backend/utils/multi_disease.py:121-124 | at most one factor, worth 10 points |
| MultiDisease.CalculateKidneyRisk | backend/utils/multi_disease.py:73-131 | the score is the sum of the factor points, within [0, 100]; the category and recommendation follow the score; the top factors are the three highest |
| MultiDisease.AltTier | backend/utils/multi_disease.py:151-157 | at most one factor, worth 25 or 15 points |
| MultiDisease.AstTier | backend/utils/multi_disease.py:160-166 | at most one factor, worth 25 or 15 points |
| MultiDisease.BilirubinTier | backend/utils/multi_disease.py:169-175 | at most one factor, worth 20 or 10 points |
| MultiDisease.AlbuminTier | backend/utils/multi_disease.py:178-184 | at most one factor, worth 15 or 8 points; a missing albumin reads as 4.0 and adds nothing |
| MultiDisease.PlateletTier | backend/utils/multi_disease.py:187-193 | at most one factor, worth 15 or 8 points; a missing count reads as 250 and adds nothing |
| MultiDisease.CalculateLiverRisk | backend/utils/multi_disease.py:136-200 | the score is the sum of the factor points, within [0, 100]; the category and recommendation follow the score; the top factors are the three highest |
| MultiDisease.LiverPointsBounded | backend/utils/multi_disease.py:147-195 | the liver points can never exceed 100, so the min(100, …) cap is never reached |
| MultiDisease.SystolicTier | backend/utils/multi_disease.py:220-232 | at most one factor, worth 40, 30, 20 or 10 points |
| MultiDisease.DiastolicTier | backend/utils/multi_disease.py:235-244 | at most one factor, worth 30, 20 or 10 points |
| MultiDisease.HypertensionBmiTier | backend/utils/multi_disease.py:247-253 | at most one factor, worth 15 or 8 points |
| MultiDisease.HypertensionAgeTier | backend/utils/multi_disease.py:256-262 | at most one factor, worth 15 or 8 points |
| MultiDisease.Systolic | backend/utils/multi_disease.py:220 | a falsy systolic pressure falls back to `bp` |
| MultiDisease.CalculateHypertensionRisk | backend/utils/multi_disease.py:205-269 | the score is the sum of the factor points, within [0, 100]; the category and recommendation follow the score; the top factors are the three highest |
| MultiDisease.DiabetesRecommendationFollowsBand | backend/utils/multi_disease.py:286-295 | two scores get the same advice exactly when they are in the same category, so the four texts are distinct |
| MultiDisease.KidneyRecommendationFollowsBand | backend/utils/multi_disease.py:298-307 | two scores get the same advice exactly when they are in the same category |
| MultiDisease.LiverRecommendationFollowsBand | backend/utils/multi_disease.py:310-319 | two scores get the same advice exactly when they are in the same category |
| MultiDisease.HypertensionRecommendationFollowsBand | backend/utils/multi_disease.py:322-331 | two scores get the same advice exactly when they are in the same category |
| MultiDisease.EmptyPatientScoresZero | backend/utils/multi_disease.py:11-269 | with no data at all, no calculator fires a single factor |
| MultiDisease.TierSum | backend/utils/multi_disease.py:28-36 | a single tier contributes between 0 and its maximum points |
| MultiDisease.SumOfFour | backend/utils/multi_disease.py:23-61 | four tiers together stay within the sum of their maxima |
| MultiDisease.TierPoints | backend/utils/multi_disease.py:28-36 | a tier's points are those of its single factor, or 0 |
| MultiDisease.SumOfParts | backend/utils/multi_disease.py:23-61 | the total points of several tiers are the sum of each tier's points |
| MultiDisease.DiabetesTiersMonotone | backend/utils/multi_disease.py:27-61 | higher glucose, HbA1c, BMI and age never lower the diabetes points |
| MultiDisease.DiabetesScoreMonotone | backend/utils/multi_disease.py:11-68 | a patient worse on every diabetes input never scores lower |
| MultiDisease.KidneyTiersMonotone | backend/utils/multi_disease.py:88-124 | higher creatinine, protein and blood pressure and a lower GFR never lower the kidney points |
| MultiDisease.KidneyScoreMonotone | backend/utils/multi_disease.py:73-131 | a patient worse on every kidney input never scores lower |
| MultiDisease.LiverTiersMonotone | backend/utils/multi_disease.py:151-193 | higher enzymes and bilirubin and lower albumin and platelets never lower the liver points |
| MultiDisease.LiverScoreMonotone | backend/utils/multi_disease.py:136-200 | a patient worse on every liver input never scores lower |
| MultiDisease.HypertensionTiersMonotone | backend/utils/multi_disease.py:220-262 | higher pressures, BMI and age never lower the hypertension points |
| MultiDisease.HypertensionScoreMonotone | backend/utils/multi_disease.py:205-269 | a patient worse on every hypertension input never scores lower |
| Factors.SortByPoints | backend/utils/preprocessing.py:196 | a permutation of the factors, sorted by points, highest first; the factors of equal points keep their list order |
| Factors.SortKeepsTies | backend/utils/preprocessing.py:196 | the sort is stable: the factors worth any given points appear in the sorted list in their original order |
| Factors.TopThree | backend/utils/preprocessing.py:196-200 | min(3, n) factors drawn from the list, highest first; none left out outranks one kept; among factors of equal points the kept ones are the earliest, in list order |
| Factors.PrefixKeepsTies | backend/utils/preprocessing.py:196-200 | the first k sorted factors of any given points are a prefix of that points' factors in list order |
| Factors.SumPointsAppend | backend/utils/multi_disease.py:23-61 | the points of two factor lists add up |
| Preprocessing.Rules | backend/utils/preprocessing.py:16-27 | the ten fields with their inclusive bounds and messages, in table order |
| Preprocessing.FirstFailure | backend/utils/preprocessing.py:29-38 | no failure exactly when every field passes its rule |
| Preprocessing.FirstFailureIsFirst | backend/utils/preprocessing.py:29-38 | a reported failure is the message of the first failing field, and every earlier field passes |
| Preprocessing.ValidateInput | backend/utils/preprocessing.py:9-40 | valid with "" exactly when all ten fields are present, numeric and within bounds; otherwise the first failing field's message (missing, out of range or not a number) |
| Preprocessing.AgePoints | backend/utils/preprocessing.py:127-129 | 0 to 25 points, none at age 30 or below |
| Preprocessing.TroponinPoints | backend/utils/preprocessing.py:134-137 | none up to 0.04, otherwise 15 to 30 points |
| Preprocessing.EjectionFractionPoints | backend/utils/preprocessing.py:141-144 | 0 to 25 points, none at 55 or above |
| Preprocessing.StPoints | backend/utils/preprocessing.py:149-151 | at most 20 points, never negative for a non-negative depression |
| Preprocessing.BpPoints | backend/utils/preprocessing.py:156-159 | 0 to 10 points |
| Preprocessing.CreatininePoints | backend/utils/preprocessing.py:162-165 | 0 to 15 points |
| Preprocessing.BmiPoints | backend/utils/preprocessing.py:170-173 | 0 to 8 points |
| Preprocessing.CholesterolPoints | backend/utils/preprocessing.py:176-179 | 0 to 8 points |
| Preprocessing.MaxHrPoints | backend/utils/preprocessing.py:182-184 | non-negative, and none from 100 bpm up |
| Preprocessing.GlucosePoints | backend/utils/preprocessing.py:187-190 | 0 to 10 points |
| Preprocessing.AgeFactor | backend/utils/preprocessing.py:130-131 | an age factor exactly when the age points exceed 15 |
| Preprocessing.TroponinFactor | backend/utils/preprocessing.py:135-138 | a troponin factor exactly when troponin > 0.04, Critical exactly when troponin > 0.5 |
| Preprocessing.EjectionFractionFactor | backend/utils/preprocessing.py:145-146 | a factor exactly when the EF points exceed 12 |
| Preprocessing.StFactor | backend/utils/preprocessing.py:152-153 | a factor exactly when the ST points exceed 10 |
| Preprocessing.CreatinineFactor | backend/utils/preprocessing.py:166-167 | a factor exactly when the creatinine points exceed 8 |
| Preprocessing.RiskCategory | backend/utils/preprocessing.py:205-214 | Low below 30, Moderate for [30, 60), High for [60, 85), Critical from 85 |
| Preprocessing.CalculateRiskScore | backend/utils/preprocessing.py:111-202 | the score is the raw risk clamped into [1, 99]; the top factors are the three highest; the category follows the score |
| Preprocessing.RiskFactorsShape | backend/utils/preprocessing.py:126-167 | at most five factors, and a troponin factor exactly when troponin > 0.04 |
| Preprocessing.RawRiskMonotone | backend/utils/preprocessing.py:123-190 | a patient worse on every parameter never has lower raw risk |
| Preprocessing.RiskScoreMonotone | backend/utils/preprocessing.py:193-214 | the same holds for the clamped score, and so for the Critical and Low categories |
| Preprocessing.ByBandFollowsCategory | backend/utils/preprocessing.py:205-226 | a choice by the 85/60/30 cut-offs depends only on the category |
| Preprocessing.RecommendationFollowsCategory | backend/utils/preprocessing.py:217-226 | the advice ignores the factors, and two scores get the same advice exactly when they share a category |
| BlockchainStorage.Put | backend/blockchain/storage.py:17-22 | creates the patient's inner map on first use, sets one pair and leaves other patients alone |
| BlockchainStorage.PutThenLookup | backend/blockchain/storage.py:15-36 | after a store, reading that pair gives the stored value and any other pair is unchanged |
| BlockchainStorage.Storage.constructor | backend/blockchain/storage.py:9-12 | all four containers start empty |
| BlockchainStorage.Storage.GetConsent | backend/blockchain/storage.py:25-29 | the stored flag, or False for an unknown pair |
| BlockchainStorage.Storage.GetConsentTimestamp | backend/blockchain/storage.py:32-36 | the stored time, or 0 for an unknown pair |
| BlockchainStorage.Storage.StoreConsent | backend/blockchain/storage.py:15-22 | sets the flag and the time for the pair; the two maps keep the same patient keys; nodes unchanged |
| BlockchainStorage.Storage.StoreNode | backend/blockchain/storage.py:39-49 | overwrites the node's record with is_verified true; the id is appended only on first registration |
| BlockchainStorage.Storage.GetNode | backend/blockchain/storage.py:52-54 | the stored record, or nothing for an unknown id |
| BlockchainStorage.Storage.GetAllNodeIds | backend/blockchain/storage.py:57-59 | duplicate-free, exactly the stored nodes, in first-registration order |
| BlockchainStorage.Storage.VerifyNode | backend/blockchain/storage.py:62-66 | true exactly when the node is stored |
| BlockchainStorage.Registered | backend/blockchain/storage.py:41-42 | the ids in order of first registration: duplicate-free, and exactly the ids ever registered |
| BlockchainStorage.RegisterAgain | backend/blockchain/storage.py:41-42 | re-registering leaves the id list as it was |
| BlockchainStorage.RegisterNew | backend/blockchain/storage.py:41-42 | a first registration appends the id at the end |
| PatientsStore.Merge | backend/data/patients_store.py:79-81 | fields in the update win and the rest are kept |
| PatientsStore.FirstIndex | backend/data/patients_store.py:69-72 | the first position holding the id, or none when no record has it |
| PatientsStore.NewestFirst | backend/data/patients_store.py:64 | a total preorder: descending timestamp string |
| PatientsStore.HighRisk | backend/data/patients_store.py:102 | only High or Critical records, drawn from the list, none of them dropped |
| PatientsStore.HighRiskCounts | backend/data/patients_store.py:102 | each High or Critical record is kept as often as it occurs, and every other record is dropped |
| PatientsStore.HighRiskKeepsOrder | backend/data/patients_store.py:102 | the filter keeps store order: filtering a concatenation is concatenating the filtered parts |
| PatientsStore.PatientStore.AddPatient | backend/data/patients_store.py:56-59 | appends at the end, returns the record, and the count grows by 1 |
| PatientsStore.PatientStore.GetAllPatients | backend/data/patients_store.py:62-64 | a permutation of the store, sorted by timestamp, newest first; records with the same timestamp keep store order |
| PatientsStore.NewestFirstKeepsTies | backend/data/patients_store.py:62-64 | the newest-first sort is stable: the records of any one timestamp keep their store order |
| PatientsStore.PatientStore.GetPatientById | backend/data/patients_store.py:67-72 | the first record with the id, or None |
| PatientsStore.PatientStore.UpdatePatient | backend/data/patients_store.py:75-83 | replaces the first matching record in place with its merge; an absent id gives None and no change |
| PatientsStore.PatientStore.DeletePatient | backend/data/patients_store.py:86-92 | removes only the first matching record and returns True; an absent id gives False and no change |
| PatientsStore.PatientStore.GetPatientCount | backend/data/patients_store.py:95-97 | the number of stored records |
| PatientsStore.PatientStore.GetHighRiskPatients | backend/data/patients_store.py:100-102 | exactly the High or Critical records, each as often as stored, in store order |
| Hospitals.FirstWhere | backend/data/legitimate_hospitals.py:203-219 | the first position satisfying the test, and none before it does |
| Hospitals.VerifyHospital | backend/data/legitimate_hospitals.py:188-226 | verified exactly when some hospital matches the name and passes the filters, and then it is the first one in list order; otherwise "flagged" with no hospital |
| Hospitals.BlankQueryMatchesAll | backend/data/legitimate_hospitals.py:201-207 | an empty or whitespace-only query matches every hospital name |
| Sorting.Filter | backend/data/legitimate_hospitals.py:233-236 | every kept element passes the test, and the result is no longer than the list |
| Sorting.FilterCounts | backend/data/legitimate_hospitals.py:233-236 | each element that passes is kept exactly as often as it occurs in the list; the others are dropped |
| Sorting.FilterKeepsOrder | backend/data/legitimate_hospitals.py:233-236 | the comprehension keeps list order: filtering a concatenation is filtering each part and concatenating |
| Sorting.FilterTwice | backend/data/legitimate_hospitals.py:231-236 | filtering by state and then by district is filtering once by both tests |
| Sorting.SortStable | backend/utils/preprocessing.py:196 | the sort is stable: for any element k, the elements tied with k appear in the sorted list in their original order |
| Hospitals.HospitalsByLocation | backend/data/legitimate_hospitals.py:229-238 | the list filtered once by every given filter (so in list order, with duplicates kept); the whole list when no filter is given |
| Hospitals.StatesOf | backend/data/legitimate_hospitals.py:175 | the state of each hospital, in list order |
| Hospitals.States | backend/data/legitimate_hospitals.py:175 | sorted, duplicate-free, and exactly the states in the list |
| Hospitals.DistrictsByState | backend/data/legitimate_hospitals.py:176-185 | a key for exactly the states in the list; each entry is sorted, duplicate-free, and exactly the districts of that state |
| DeepSeek.Names | backend/services/deepseek_predictor.py:150-200 | at most one factor name per check |
| DeepSeek.NamesAreFired | backend/services/deepseek_predictor.py:150-200 | a name is listed exactly when its check fired |
| DeepSeek.AgeCheck | backend/services/deepseek_predictor.py:154-160 | 25, 15 or 0 points, with a factor exactly when points are given |
| DeepSeek.BpCheck | backend/services/deepseek_predictor.py:163-169 | 20, 12 or 0 points, with a factor exactly when points are given |
| DeepSeek.CholesterolCheck | backend/services/deepseek_predictor.py:172-177 | 15, 8 or 0 points; a factor only above 240, and 8 points without a factor for 201 to 240 |
| DeepSeek.GlucoseCheck | backend/services/deepseek_predictor.py:180-186 | 15, 8 or 0 points, with a factor exactly when points are given |
| DeepSeek.TroponinCheck | backend/services/deepseek_predictor.py:189-192 | 20 or 0 points, with a factor exactly when points are given |
| DeepSeek.EjectionFractionCheck | backend/services/deepseek_predictor.py:195-200 | 20, 10 or 0 points; a factor only below 40, and 10 points without a factor for 40 to 49 |
| DeepSeek.Checks | backend/services/deepseek_predictor.py:150-200 | six checks in source order; a missing EF reads as 60 and the other fields as 0 |
| DeepSeek.RawScoreAtMost115 | backend/services/deepseek_predictor.py:150-203 | the uncapped sum is at most 115, and that value is reached, so the cap at 100 is live |
| DeepSeek.Category | backend/services/deepseek_predictor.py:206-213 | Low below 30, Moderate for [30, 60), High for [60, 80), Critical from 80 |
| DeepSeek.TopFactors | backend/services/deepseek_predictor.py:216 | the first three names in check order, or the three defaults when none fired |
| DeepSeek.FallbackPrediction | backend/services/deepseek_predictor.py:146-230 | the score is min(sum of points, 100), within [0, 100]; the category follows it; the recommendation names that category; the disease risks are min(score × 0.85 / 0.65 / 0.75, 100) |
| DeepSeek.EmptyPatient | backend/services/deepseek_predictor.py:154-195 | an empty record scores 0, Low, with the default factors |
| DeepSeek.ParseResponse | backend/services/deepseek_predictor.py:128-140 | each supplied field is passed through, the score truncated by `int`; a missing score becomes 50, a missing category "Moderate", missing factors ["Age", "Blood Pressure", "Cholesterol"], a missing recommendation "Consult with a cardiologist for detailed evaluation", missing disease risks 50/40/45; the method is always "DeepSeek AI" |
| Gemini.StripFences | backend/services/gemini_predictor.py:93-100 | never longer than its input |
| Gemini.StripFencesIsSlice | backend/services/gemini_predictor.py:93-100 | the result is always one contiguous piece of the input |
| Gemini.NoFencesOnlyStripped | backend/services/gemini_predictor.py:93-100 | text without fences comes out only trimmed |
| Gemini.FencedBlockExample | backend/services/gemini_predictor.py:93-100 | a fenced JSON block comes out as its contents |
| Gemini.ParseResponse | backend/services/gemini_predictor.py:106-118 | the same defaults as the DeepSeek parser, with the method "Gemini AI" |
| Gemini.AccumulateMatchesChecks | backend/services/gemini_predictor.py:129-180 | the step-by-step accumulation gives the same points and names as the DeepSeek checks |
| Gemini.SameFallbackAsDeepSeek | backend/services/gemini_predictor.py:125-209 | for every patient, this fallback gives exactly the DeepSeek fallback's prediction |
| MLModel.Bonus | backend/services/ml_model.py:166-172 | the clinical bonuses add 0 to 25 points |
| MLModel.WeightedBaseBounds | backend/services/ml_model.py:160-164 | with probabilities in [0, 1] summing to 1, the weighted base lies in [16.5, 83.5] |
| MLModel.RiskScoreIsCappedSum | backend/services/ml_model.py:160-174 | the three capped additions equal one capped addition of the summed bonus |
| MLModel.RiskScoreBounds | backend/services/ml_model.py:157-174 | the score lies between the base and 100 |
| MLModel.FactorNamesDistinct | backend/services/ml_model.py:176-233 | the 19 factor names and the three generic ones are all distinct |
| MLModel.Candidates | backend/services/ml_model.py:176-220 | one candidate per factor, in source order; optional factors fire only when their key is present |
| MLModel.FiredExactly | backend/services/ml_model.py:176-220 | the triggered list holds exactly the candidates that fired |
| MLModel.FiredNamesDistinct | backend/services/ml_model.py:176-220 | the triggered names are distinct |
| MLModel.ByWeight | backend/services/ml_model.py:223 | a total preorder: descending weight |
| MLModel.RankedFacts | backend/services/ml_model.py:223 | the ranking is a permutation of the triggered factors, sorted by weight, highest first, with distinct names |
| MLModel.RankedKeepsTies | backend/services/ml_model.py:223 | `list.sort` is stable: triggered factors of equal weight keep the order in which they were checked |
| MLModel.PadWithGeneric | backend/services/ml_model.py:227-233 | the loop appends "Age", "Blood Pressure", "Cholesterol" in that order until there are three |
| MLModel.GetTopFactors | backend/services/ml_model.py:176-235 | exactly three distinct names: the highest-ranked triggered ones, padded with the generic ones |
| MLModel.PaddedDistinct | backend/services/ml_model.py:227-235 | padding never duplicates a name |
| MLModel.Recommendation | backend/services/ml_model.py:237-244 | the Low text exactly for "Low", the Moderate text exactly for "Moderate", the High text for anything else |
| MLModel.HypertensionBase | backend/services/ml_model.py:282-294 | 95, 85, 70, 50, 30 or 10 by blood pressure band |
| MLModel.HypertensionBaseMonotone | backend/services/ml_model.py:282-294 | a higher pressure never lowers the base |
| MLModel.CalculateDiseaseRisks | backend/services/ml_model.py:246-307 | all four risks are at most 100, and hypertension is at least its base |
| MLModel.DiseaseRisksAreCappedSums | backend/services/ml_model.py:250-306 | each risk is min(base + its bonuses, 100) |
| MLModel.SampleScore | backend/services/ml_model.py:48-70 | the synthetic score is the points, capped at 100 |
| MLModel.SampleClass | backend/services/ml_model.py:72-78 | class 0 below 40, 1 for [40, 70), 2 from 70 |
| MLModel.SamplePointsExtendFallbackChecks | backend/services/ml_model.py:48-68 | the labelling points are the fallback checks' points plus the ST, creatinine and BMI points, at most 139 |
| MLModel.CapReached | backend/services/ml_model.py:70 | a sample that reaches 139 points, so the cap at 100 is live |
| RiskModel.NotANumberIffAllZero | backend/models/risk_model.py:77-80 | the importances are NaN exactly when every coefficient is 0 |
| RiskModel.NormalizedSumsToOne | backend/models/risk_model.py:77-82 | otherwise each importance is |coefficient| / Σ|coefficients|, non-negative, and they sum to 1 |
| RiskModel.Zip | backend/models/risk_model.py:82 | pairs names and weights position by position, up to the shorter list |
| RiskModel.MockShapValues | backend/models/risk_model.py:131-191 | six contributions with base value 0.3, each positive exactly when its value is |
| RiskModel.MockSignsFollowMarkers | backend/models/risk_model.py:141-186 | the contributions come in fixed order and raise the risk exactly for troponin > 0.04, EF < 45, ST > 1.5, age > 65, creatinine > 1.3 and max HR ≤ 140 |
| RiskModel.Explained | backend/models/risk_model.py:112-126 | six contributions out of the ten, sorted by absolute value with none left out larger than one kept; the base value is the explainer's, or 0.5 |
| RiskModel.SortKeepsSizes | backend/models/risk_model.py:119-120 | the sort by magnitude is stable: contributions of any one magnitude keep feature order |
| RiskModel.ExplainedKeepsTies | backend/models/risk_model.py:119-124 | among contributions of equal magnitude, the six kept are the earliest in feature order, in that order |
| RiskModel.CardiacRiskModel.constructor | backend/models/risk_model.py:20-27 | untrained, with no coefficients |
| RiskModel.CardiacRiskModel.Train | backend/models/risk_model.py:29-48 | the model is trained, with the fitted coefficients |
| RiskModel.CardiacRiskModel.PredictProba | backend/models/risk_model.py:50-64 | refused with "Model not trained yet" exactly when untrained |
| RiskModel.CardiacRiskModel.GetFeatureImportance | backend/models/risk_model.py:66-82 | refused exactly when untrained; otherwise the normalised importances by feature name |
| RiskModel.CardiacRiskModel.CalculateShapValues | backend/models/risk_model.py:84-129 | the mock values when untrained or when the explainer fails; otherwise the explained contributions |
| RiskModel.CardiacRiskModel.Save | backend/models/risk_model.py:193-196 | refused with "Cannot save untrained model" exactly when untrained |
| RiskModel.CardiacRiskModel.Load | backend/models/risk_model.py:203-212 | true and trained exactly when both files exist; otherwise false with nothing changed |
| Api.MissingFrom | backend/main.py:336 | exactly the required columns that are absent |
| Api.MissingFromKeepsOrder | backend/main.py:336 | the missing columns keep required-list order |
| Api.CheckUpload | backend/main.py:313-341 | the extension, size, parse and column checks, in that order, each with its message; otherwise the parsed table |
| Api.TopFactorName | backend/main.py:370 | "N/A" when there are no factors |
| Api.EntryFor | backend/main.py:349-374 | patient id = row index + 1; an error entry with the first validation message exactly when the row is invalid; otherwise the score within [1, 99] and its category |
| Api.ValidScores | backend/main.py:385 | no more scores than entries, and as many exactly when every row scored |
| Api.PredictRow | backend/main.py:349-374 | the loop body gives the entry `EntryFor` describes |
| Api.PredictBatch | backend/main.py:344-382 | exactly one entry per row, in row order, with the list of successful scores kept beside it |
| Api.BandsPartition | backend/main.py:392-394 | the high, moderate and low counts add up to the number of scores |
| Api.Summarize | backend/main.py:385-397 | successful + failed = total = number of entries; high, moderate and low are the exact counts of successful scores ≥ 60, in [30, 60) and < 30, and partition the successes; average, maximum and minimum are 0 without successes; otherwise the average is the sum of the successful scores over their number, every successful score lies between minimum and maximum, and both are actual scores |
| Api.BatchPredict | backend/main.py:302-404 | an upload refused by the checks gives that error; otherwise one entry per row and the summary of those entries |
| Api.ToRequest | backend/main.py:184 | the dumped body holds all ten fields, numeric |
| Stats.Truncate | backend/main.py:237 | Python `int()`: the integer nearest zero within 1 of the value, so a positive estimate is rounded down and a negative one up |
| Api.DiabetesGlucoseIsFlagTimes120 | backend/main.py:206 | the diabetes calculator sees the 0/1 glucose flag as 0 or 120 |
| Api.DiabetesDefaultsAgree | backend/main.py:205-212 | the diabetes assessment is the same whether an unsupplied HbA1c reaches the calculator as None or as the handler's default 5.5 |
| Api.KidneyDefaultsAgree | backend/main.py:215-222 | the kidney assessment is the same whether unsupplied GFR and protein values reach the calculator as None or as the handler's defaults 100 and 15 |
| Api.LiverDefaultsAgree | backend/main.py:225-232 | the liver assessment is the same whether unsupplied liver values reach the calculator as None or as the handler's defaults 30, 25, 0.8, 4.0 and 250 |
| Api.HypertensionInput | backend/main.py:235-241 | an unsupplied systolic pressure falls back to `bp`, and an unsupplied diastolic pressure to int(bp × 0.67) |
| Api.HypertensionInputAsWritten | backend/main.py:235-241 | an unsupplied diastolic pressure reaches the calculator as None |
| Api.FactorsAsWritten | backend/main.py:237 | as written, a patient with stage 2 systolic pressure and no readings gets only the stage 2 factor |
| Api.FactorsIntended | backend/main.py:237 | with the estimate, the same patient also gets the high diastolic factor |
| Api.ScoreAsWritten | backend/main.py:237 | as written, such a patient scores 30, Moderate |
| Api.ScoreIntended | backend/main.py:237 | with the estimate, such a patient scores 50, High |
| Api.DiastolicEstimateIgnored | backend/main.py:237 | the two scores side by side: 30 and Moderate as written, 50 and High as intended |
| Api.HypertensionScoredByFactors | backend/utils/multi_disease.py:264-268 | the hypertension score is its factors' point sum, and the category follows it |
| Api.DiastolicEstimateUsed | backend/main.py:237 | with the estimate, a valid request without a diastolic reading is scored on int(bp × 0.67) ≥ 40, never on the calculator's 0 |
| Api.AssessDiseases | backend/main.py:194-242 | each of the four calculators runs on the input assembled for it: diabetes, kidney and liver as `model_dump()` leaves them (unsupplied values as None), hypertension with the corrected diastolic estimate |
| Api.Validate | backend/main.py:186-189 | the first validation message, or none |
| Api.Respond | backend/main.py:191-294 | the clamped score, its category and factors, the advice, the four disease assessments (hypertension on the corrected estimate), and a forecast starting from the score |
| Api.Predict | backend/main.py:182-294 | a refusal with the first validation message, or the answer to a valid request, with the corrected hypertension assessment |
| Api.LastTen | backend/main.py:415 | the last min(10, n) entries, oldest first |
| Api.LastTenAfterAppend | backend/main.py:412-415 | a new prediction becomes the last shown entry, and once ten are shown the oldest drops out |
| Api.Logged | backend/main.py:277-282 | one entry for an answered request, none for a refused one |
| Api.Backend.PredictRisk | backend/main.py:171-299 | answers as `Predict` does (hypertension on the corrected estimate) and appends exactly the logged entry |
| Api.Backend.GetLogs | backend/main.py:412-415 | the last ten logged predictions, in logging order |
| Stats.MeanOrZero | backend/main.py:391 | 0 for no scores, otherwise mean × count = sum |
| Stats.MeanWithin | backend/routes/patients.py:85 | the mean of a non-empty list lies within any bounds of its elements |
| Stats.CountWhere | backend/main.py:392-394 | at most the list's length; 0 exactly when none qualify, the full length exactly when all do |
| Stats.MaxOf | backend/main.py:395 | an element of the list, at least every element |
| Stats.MinOf | backend/main.py:396 | an element of the list, at most every element |
| Forecasting.Clamp | backend/main.py:269 | max(10, min(99, x)) lies in [10, 99] and leaves values inside unchanged |
| Forecasting.Trajectory | backend/main.py:264-274 | one running risk per draw, each in [10, 99] |
| Forecasting.TrajectoryStep | backend/main.py:268-269 | day i's risk is the clamped sum of day i - 1's risk and day i's draw |
| Forecasting.TrajectorySmooth | backend/routes/patients.py:112-115 | consecutive forecast values differ by at most that day's draw |
| Forecasting.FollowsWithinBounds | backend/routes/patients.py:112-121 | a forecast has days 1..n in order, each risk in [10, 99] |
| Forecasting.ForecastDays | backend/main.py:264-274 | the loop yields one entry per draw, numbered from day 1, following the clamped trajectory |
| PatientsRoutes.ScoresOf | backend/routes/patients.py:85 | the records' scores, in order |
| PatientsRoutes.GetPatients | backend/routes/patients.py:36-45 | all records newest first; total = record count; high-risk count = records scoring ≥ 60, never above the total |
| PatientsRoutes.GetPatient | backend/routes/patients.py:48-54 | the first record with the id, or "Patient not found" |
| PatientsRoutes.ToRecord | backend/routes/patients.py:63-67 | the payload's id when it has one, otherwise the generated id |
| PatientsRoutes.CreatePatient | backend/routes/patients.py:57-74 | appends the record to the store and reports its id |
| PatientsRoutes.GetDashboardStats | backend/routes/patients.py:77-96 | total = record count; the high-risk count is exactly the number of records scoring at least 60, and ≤ total; average = mean score, or 0 when empty; the recent record is None exactly when empty, and otherwise the first record of the newest-first list, a stored record no older than any other |
| PatientsRoutes.AverageWithinScores | backend/routes/patients.py:85 | the dashboard average lies between the lowest and highest score |
| PatientsRoutes.GetRiskForecast | backend/routes/patients.py:99-128 | "Patient not found" exactly for an unknown id; otherwise the stored score with a forecast that follows the clamped trajectory from it |
| ActivityLog.WithDetail | frontend/src/context/ActivityLogContext.jsx:27-37 | the action, followed by ": " and the detail only when the detail is non-empty |
| ActivityLog.WithDetailInjective | frontend/src/context/ActivityLogContext.jsx:28 | different details for the same action give different messages |
| ActivityLog.Log.constructor | frontend/src/context/ActivityLogContext.jsx:14-16 | a single INFO entry, "System initialized" |
| ActivityLog.Log.AddLog | frontend/src/context/ActivityLogContext.jsx:18-25 | prepends the entry with its type upper-cased; earlier entries keep their order |
| ActivityLog.Log.LogAction | frontend/src/context/ActivityLogContext.jsx:27-29 | prepends an INFO entry with the formatted message |
| ActivityLog.Log.LogSuccess | frontend/src/context/ActivityLogContext.jsx:31-33 | prepends a SUCCESS entry with the formatted message |
| ActivityLog.Log.LogError | frontend/src/context/ActivityLogContext.jsx:35-37 | prepends an ERROR entry with the formatted message |
| ActivityLog.Log.ClearLogs | frontend/src/context/ActivityLogContext.jsx:39-41 | only the INFO entry "Logs cleared" remains |
| CsvUpload.SelectionError | frontend/src/components/prediction/CSVUpload.jsx:34-42 | the extension check before the size check; exactly 5 MiB is accepted |
| CsvUpload.SelectionAgreesWithServer | frontend/src/components/prediction/CSVUpload.jsx:34-42 | the panel refuses exactly the files the server would refuse for extension or size |
| CsvUpload.UploadError | frontend/src/components/prediction/CSVUpload.jsx:73-82 | "Error: " + the server's detail, or "Upload failed", or the thrown message, + the backend hint |
| CsvUpload.RiskColor | frontend/src/components/prediction/CSVUpload.jsx:113-121 | Critical and High share red; Moderate is amber; Low is green; anything else is grey |
| CsvUpload.ServerCategoriesColoured | frontend/src/components/prediction/CSVUpload.jsx:113-121 | every category the server assigns has a band colour, and red exactly from 60 |
| CsvUpload.Panel.HandleFileSelect | frontend/src/components/prediction/CSVUpload.jsx:33-47 | a refused file only sets the error; an accepted one becomes the file and clears the error and the results |
| CsvUpload.Panel.HandleUpload | frontend/src/components/prediction/CSVUpload.jsx:55-86 | without a file only the error is set and nothing is sent; otherwise the results or the error are set, and uploading is false again |
| CsvUpload.Panel.NewUpload | frontend/src/components/prediction/CSVUpload.jsx:225 | clears the results and the file |
| NodeRegistry.SomeContained | frontend/src/pages/NodeRegistry.jsx:67-69 | true exactly when some keyword occurs in the string |
| NodeRegistry.IsSuspicious | frontend/src/pages/NodeRegistry.jsx:65-70 | true exactly when the lower-cased name contains hacker, fake, test, malicious, spam or fraud |
| NodeRegistry.SuspiciousIgnoresCase | frontend/src/pages/NodeRegistry.jsx:68 | a name and its lower-cased form are flagged alike |
| NodeRegistry.SuspiciousKeptInLongerName | frontend/src/pages/NodeRegistry.jsx:65-70 | adding text around a flagged name never clears the flag |
| NodeRegistry.StatusOf | frontend/src/pages/NodeRegistry.jsx:172-199 | Unverified exactly when not verified; otherwise Suspicious exactly when flagged, Verified when not |
| NodeRegistry.HexString | frontend/src/pages/NodeRegistry.jsx:58-60 | one lower-case hex digit per draw |
| NodeRegistry.HexRoundTrip | frontend/src/pages/NodeRegistry.jsx:58-60 | reading the key's digits gives back exactly the draws |
| NodeRegistry.Registry.GeneratePublicKey | frontend/src/pages/NodeRegistry.jsx:56-62 | the key is "0x" followed by 64 lower-case hex digits; the other fields are unchanged |
| NodeRegistry.Registry.HandleRegister | frontend/src/pages/NodeRegistry.jsx:29-54 | a successful registration clears all three fields and takes the refreshed list; a failure keeps the form; loading is false again either way |
| PredictionView.Label | frontend/src/components/prediction/PredictionResult.jsx:6-51 | High above 70, Moderate for (30, 70], Low otherwise |
| PredictionView.BandsExclusive | frontend/src/components/prediction/PredictionResult.jsx:6-7 | the two band flags never hold together, so exactly one label is shown |
| PredictionView.Clamp100 | frontend/src/components/prediction/PredictionResult.jsx:14 | clamps into [0, 100] and leaves values inside unchanged |
| PredictionView.ForecastData | frontend/src/components/prediction/PredictionResult.jsx:12-15 | one point per draw, point i on day i + 1, each risk in [0, 100] |
| PredictionView.ForecastNearTrend | frontend/src/components/prediction/PredictionResult.jsx:14 | each point lies within 5 of the clamped trend line, whatever the draw |
| PredictionView.GaugeRotation | frontend/src/components/prediction/PredictionResult.jsx:40 | -45 + 1.8 × score degrees: within [-45, 135] for scores in [0, 100] |
| PredictionView.GaugeMonotone | frontend/src/components/prediction/PredictionResult.jsx:40 | a higher score always turns the needle further |

## Left out

- E-mail sending: the SMTP and HTML e-mail in backend/utils/otp_service.py:57-175 is I/O. Only the write to the OTP store is modelled.
- Otp.OtpStore.Issue: the source reads the clock twice, once for `created_at` and once for `expiry`. The model uses a single time for both.
- Clocks, timestamps and date strings: the current time is a parameter. ISO date strings and forecast dates are left out.
- Randomness: random draws (OTP digits, FL noise and sample counts, forecast variations, hex digits, chart noise) are parameters. Each carries the range its generator guarantees.
- scikit-learn, SHAP and pickle: these are foreign libraries. Their outputs are inputs to the model: fitted coefficients, class probabilities, explainer values, whether the files exist. `engineer_features` and `read_csv` (pandas) are left out for the same reason.
- Language-model calls and `json.loads`: these are network I/O. The parsed answer is an input record.
- Rounding: `round(x, 1)`, `round(x, 4)`, `toFixed` and locale formatting are left out. Values are kept exact.
- Floating point: scores and metrics are exact reals, so results that depend on binary rounding are not captured.
- Text: case mapping and stripping are ASCII only. Unicode case folding and Unicode whitespace are not modelled.
- Python None: a key that `model_dump()` writes with value None is modelled as an absent key. The calculators read every key through `x or d`, so both give the same value. A None that reaches arithmetic, where Python would raise, is not modelled.
- Hospital list: the static data in backend/data/legitimate_hospitals.py is a parameter. The matching and the derived indices are modelled.
- HTTP plumbing: FastAPI routing, Pydantic field bounds, CORS, status codes, and the 500 wrappers for unexpected exceptions are not modelled. An error the handlers raise themselves is an `Err` carrying its detail text.
- Api.PredictRow: the batch loop's `except` branch, which catches errors other than validation failures, is not modelled. A row that passes validation cannot raise in the model.
- Api.AssessDiseases: scores hypertension on the corrected input, where an unsupplied diastolic pressure is estimated as int(bp × 0.67). The source scores it as 0 (see Findings), so for age 40, BMI 22, bp 150 and no pressure readings the model answers 50 / High where the source answers 30 / Moderate. The as-written reading is `Api.HypertensionInputAsWritten`.
- Api.Respond: its hypertension assessment is the corrected one, as for `Api.AssessDiseases`.
- Api.Predict: its hypertension assessment is the corrected one, as for `Api.AssessDiseases`.
- Api.Backend.PredictRisk: answers and logs the corrected hypertension assessment, as for `Api.AssessDiseases`.
- Api.Predict: the SHAP explanation and the multi-disease `try/except` (whose `except` cannot be reached with the modelled inputs) are not modelled in the response. The log file written in that branch is left out too.
- PatientsStore.PatientStore.UpdatePatient: the source rebuilds the record with `PatientRecord(**updated_data)`, which drops keys the record does not declare and re-validates field types. `Merge` keeps every update key, and type validation is left out.
- PatientsRoutes.CreatePatient: `PatientRecord(**payload)` field validation is left out. The payload is already a record with an optional id.
- CsvUpload: drag-and-drop handlers, the sample-CSV download and the results download (PapaParse and file-saver) are left out. The response body is kept undecoded.
- NodeRegistry: the node list fetched when the page first loads is not modelled. The alerts are UI.
- PredictionView: the colour choice and the fixed SHAP demo data are presentation only. The component draws 30 noise values, which the model takes as a parameter of any length.
- PredictionView.ForecastData: states the points for any number of draws. That the component always draws exactly 30 is not stated.

## Findings

| source | as written | input that shows it | evidently intended | confidence | as-written member | corrected member |
|---|---|---|---|---|---|---|
| backend/main.py:237 | `patient_dict.get('diastolic_bp', int(bp * 0.67))` reads a dict from `model_dump()`, which always holds the key `diastolic_bp` (None when not supplied), so the estimate is never used and the hypertension calculator scores the diastolic pressure as 0 | age 40, bmi 22, bp 150, no systolic or diastolic reading: hypertension score 30, Moderate | an unsupplied diastolic pressure is estimated as int(150 × 0.67) = 100, adding the 20-point "High Diastolic BP" factor: score 50, High | high (not executed) | Api.ScoreAsWritten | Api.ScoreIntended |
