/**
 * Bookkeeping of the simulated federated-learning rounds
 * (backend/services/fl_simulation_service.py).
 *
 * The service keeps five running metrics, a round counter, the total number
 * of samples trained on and an append-only history of round records. Every
 * random draw (`random.uniform`, `random.randint`) is a parameter whose range
 * is a precondition; the wall-clock timestamp of a record is not modelled.
 */
module FLSimulation {
  import opened Wrappers

  datatype Metrics = Metrics(accuracy: real, loss: real, f1: real, precision: real, recall: real)

  datatype Improvement = Improvement(accuracy: real, loss: real, f1: real, precision: real, recall: real)

  datatype Hospital = Hospital(name: string, district: Option<string>, state: Option<string>)

  datatype TrainingRecord = TrainingRecord(
    round: nat,
    metrics: Metrics,
    improvements: Improvement,
    participatingHospitals: nat,
    hospitalNames: seq<string>,
    hospitalLocations: seq<string>,
    samplesTrained: nat,
    totalSamples: nat,
    trainingTimeSeconds: real,
    convergenceStatus: string)

  datatype Status = Status(round: nat, metrics: Metrics, totalSamplesTrained: nat, status: string)

  /** The five `random.uniform` draws of `__init__`. */
  datatype InitNoise = InitNoise(accuracy: real, loss: real, f1: real, precision: real, recall: real)

  predicate InitNoiseInRange(n: InitNoise)
  {
    && 0.0 <= n.accuracy <= 0.02
    && -0.03 <= n.loss <= 0.03
    && 0.0 <= n.f1 <= 0.02
    && 0.0 <= n.precision <= 0.02
    && 0.0 <= n.recall <= 0.02
  }

  function InitialMetrics(n: InitNoise): (m: Metrics)
    requires InitNoiseInRange(n)
    ensures 0.76 <= m.accuracy <= 0.78 && 0.45 <= m.loss <= 0.51
    ensures WithinCaps(m)
  {
    Metrics(0.76 + n.accuracy, 0.48 + n.loss, 0.74 + n.f1, 0.75 + n.precision, 0.73 + n.recall)
  }

  /** The ceilings (and the loss floor) that `run_training_round` enforces. */
  predicate WithinCaps(m: Metrics)
  {
    m.accuracy <= 0.965 && m.loss >= 0.045 && m.f1 <= 0.96 && m.precision <= 0.97 && m.recall <= 0.95
  }

  function Clamp(lo: real, x: real, hi: real): real
  {
    if x < lo then lo else if x > hi then hi else x
  }

  /** The accuracy gain before clamping: more hospitals help (up to 9.6), later rounds help less. */
  function RawAccuracyGain(numHospitals: nat, roundNum: nat, noise: real): real
  {
    var hospitalFactor := if numHospitals as real / 8.0 <= 1.2 then numHospitals as real / 8.0 else 1.2;
    0.015 * hospitalFactor * (1.0 / (1.0 + 0.08 * roundNum as real)) + noise
  }

  function RawLossReduction(numHospitals: nat, roundNum: nat, noise: real): real
  {
    var hospitalFactor := if numHospitals as real / 8.0 <= 1.2 then numHospitals as real / 8.0 else 1.2;
    0.02 * hospitalFactor * (1.0 / (1.0 + 0.08 * roundNum as real)) + noise
  }

  /**
   * `calculate_improvement`: whatever the noise, the accuracy gain lies in
   * [0.005, 0.035] and the loss reduction in [0.005, 0.04]; a raw value
   * already in range passes through unchanged; the other three gains are
   * fixed fractions of the accuracy gain.
   */
  function CalculateImprovement(numHospitals: nat, roundNum: nat, noise: real, lossNoise: real): (r: Improvement)
    ensures 0.005 <= r.accuracy <= 0.035
    ensures 0.005 <= r.loss <= 0.04
    ensures 0.005 <= RawAccuracyGain(numHospitals, roundNum, noise) <= 0.035 ==>
              r.accuracy == RawAccuracyGain(numHospitals, roundNum, noise)
    ensures 0.005 <= RawLossReduction(numHospitals, roundNum, lossNoise) <= 0.04 ==>
              r.loss == RawLossReduction(numHospitals, roundNum, lossNoise)
    ensures 0.0 < r.f1 < r.accuracy && 0.0 < r.precision < r.accuracy && 0.0 < r.recall < r.accuracy
  {
    var accuracy := Clamp(0.005, RawAccuracyGain(numHospitals, roundNum, noise), 0.035);
    var loss := Clamp(0.005, RawLossReduction(numHospitals, roundNum, lossNoise), 0.04);
    Improvement(accuracy, loss, accuracy * 0.95, accuracy * 0.92, accuracy * 0.98)
  }

  /** One metric update: add the gain, but never past the cap. */
  function Capped(current: real, gain: real, cap: real): (r: real)
    requires current <= cap && gain >= 0.0
    ensures current <= r <= cap
    ensures r == cap || r == current + gain
  {
    if current + gain <= cap then current + gain else cap
  }

  /** The metrics after a round with the given gains. */
  function NextMetrics(m: Metrics, imp: Improvement): (r: Metrics)
    requires WithinCaps(m)
    requires 0.0 <= imp.accuracy && 0.0 <= imp.loss && 0.0 <= imp.f1 && 0.0 <= imp.precision && 0.0 <= imp.recall
    ensures WithinCaps(r)
    ensures m.accuracy <= r.accuracy && r.loss <= m.loss
    ensures m.f1 <= r.f1 && m.precision <= r.precision && m.recall <= r.recall
  {
    Metrics(
      Capped(m.accuracy, imp.accuracy, 0.965),
      if m.loss - imp.loss >= 0.045 then m.loss - imp.loss else 0.045,
      Capped(m.f1, imp.f1, 0.96),
      Capped(m.precision, imp.precision, 0.97),
      Capped(m.recall, imp.recall, 0.95))
  }

  function ConvergenceStatus(accuracy: real): (s: string)
    ensures s == "near_optimal" <==> accuracy >= 0.94
    ensures s == "converging" <==> accuracy < 0.94
  {
    if accuracy < 0.94 then "converging" else "near_optimal"
  }

  function Names(hospitals: seq<Hospital>): (r: seq<string>)
    ensures |r| == |hospitals|
    ensures forall i :: 0 <= i < |r| ==> r[i] == hospitals[i].name
  {
    seq(|hospitals|, i requires 0 <= i < |hospitals| => hospitals[i].name)
  }

  /** `f"{h.get('district', 'N/A')}, {h.get('state', 'N/A')}"`. */
  function Location(h: Hospital): string
  {
    (if h.district.Some? then h.district.value else "N/A") + ", " + (if h.state.Some? then h.state.value else "N/A")
  }

  function Locations(hospitals: seq<Hospital>): (r: seq<string>)
    ensures |r| == |hospitals|
    ensures forall i :: 0 <= i < |r| ==> r[i] == Location(hospitals[i])
  {
    seq(|hospitals|, i requires 0 <= i < |hospitals| => Location(hospitals[i]))
  }

  /**
   * The history invariant: record i is round i+1, the running totals only
   * grow, accuracy never falls and loss never rises from one record to the
   * next, and each record's status matches its accuracy.
   */
  ghost predicate HistoryWellFormed(history: seq<TrainingRecord>)
  {
    && (forall i :: 0 <= i < |history| ==> history[i].round == i + 1)
    && (forall i :: 0 <= i < |history| ==> WithinCaps(history[i].metrics))
    && (forall i :: 0 <= i < |history| ==>
          history[i].convergenceStatus == ConvergenceStatus(history[i].metrics.accuracy))
    && (forall i, j :: 0 <= i < j < |history| ==>
          && history[i].metrics.accuracy <= history[j].metrics.accuracy
          && history[i].metrics.loss >= history[j].metrics.loss
          && history[i].totalSamples <= history[j].totalSamples)
  }

  /**
   * Appending a record that numbers the next round, stays under the caps,
   * carries its status and does not fall behind the last record keeps the
   * history well formed.
   */
  lemma AppendKeepsHistory(history: seq<TrainingRecord>, record: TrainingRecord)
    requires HistoryWellFormed(history)
    requires record.round == |history| + 1
    requires WithinCaps(record.metrics)
    requires record.convergenceStatus == ConvergenceStatus(record.metrics.accuracy)
    requires history != [] ==>
               var last := history[|history| - 1];
               && last.metrics.accuracy <= record.metrics.accuracy
               && last.metrics.loss >= record.metrics.loss
               && last.totalSamples <= record.totalSamples
    ensures HistoryWellFormed(history + [record])
  {
    var h := history + [record];
    forall i, j | 0 <= i < j < |h|
      ensures && h[i].metrics.accuracy <= h[j].metrics.accuracy
              && h[i].metrics.loss >= h[j].metrics.loss
              && h[i].totalSamples <= h[j].totalSamples
    {
      if j == |history| && i < |history| - 1 {
        assert h[i] == history[i];
        assert history[i].metrics.accuracy <= history[|history| - 1].metrics.accuracy;
      }
    }
  }

  class FLSimulationService {
    var accuracy: real
    var loss: real
    var f1Score: real
    var precision: real
    var recall: real
    var roundNumber: nat
    var trainingHistory: seq<TrainingRecord>
    var totalSamplesTrained: nat

    function Current(): Metrics
      reads this
    {
      Metrics(accuracy, loss, f1Score, precision, recall)
    }

    ghost predicate Valid()
      reads this
    {
      && WithinCaps(Current())
      && |trainingHistory| == roundNumber
      && HistoryWellFormed(trainingHistory)
      && (trainingHistory != [] ==>
            && Last(trainingHistory).metrics == Current()
            && Last(trainingHistory).totalSamples == totalSamplesTrained)
      && (trainingHistory == [] ==> totalSamplesTrained == 0)
    }

    static function Last(history: seq<TrainingRecord>): TrainingRecord
      requires history != []
    {
      history[|history| - 1]
    }

    constructor (noise: InitNoise)
      requires InitNoiseInRange(noise)
      ensures Valid()
      ensures Current() == InitialMetrics(noise)
      ensures roundNumber == 0 && trainingHistory == [] && totalSamplesTrained == 0
    {
      var m := InitialMetrics(noise);
      accuracy, loss, f1Score, precision, recall := m.accuracy, m.loss, m.f1, m.precision, m.recall;
      roundNumber := 0;
      trainingHistory := [];
      totalSamplesTrained := 0;
    }

    /**
     * One round: the counter goes up by one, the metrics move by the clamped
     * gains under their caps, the sample total grows by hospitals times the
     * per-hospital draw, and exactly one record is appended.
     */
    method RunTrainingRound(hospitals: seq<Hospital>, noise: real, lossNoise: real,
                            samplesPerHospital: nat, trainingTime: real) returns (record: TrainingRecord)
      requires Valid()
      requires 800 <= samplesPerHospital <= 1500
      requires 15.0 <= trainingTime <= 45.0
      modifies this
      ensures Valid()
      ensures roundNumber == old(roundNumber) + 1
      ensures trainingHistory == old(trainingHistory) + [record]
      ensures record.round == roundNumber
      ensures Current() == NextMetrics(old(Current()), CalculateImprovement(|hospitals|, roundNumber, noise, lossNoise))
      ensures old(accuracy) <= accuracy && loss <= old(loss)
      ensures totalSamplesTrained == old(totalSamplesTrained) + |hospitals| * samplesPerHospital
      ensures record.samplesTrained == |hospitals| * samplesPerHospital
      ensures record.totalSamples == totalSamplesTrained
      ensures record.participatingHospitals == |hospitals|
      ensures record.hospitalNames == Names(hospitals)
      ensures record.hospitalLocations == Locations(hospitals)
      ensures record.improvements == CalculateImprovement(|hospitals|, roundNumber, noise, lossNoise)
      ensures record.metrics == Current()
      ensures record.trainingTimeSeconds == trainingTime
      ensures record.convergenceStatus == "near_optimal" <==> accuracy >= 0.94
    {
      roundNumber := roundNumber + 1;
      var imp := CalculateImprovement(|hospitals|, roundNumber, noise, lossNoise);
      var m := NextMetrics(Current(), imp);
      accuracy, loss, f1Score, precision, recall := m.accuracy, m.loss, m.f1, m.precision, m.recall;
      var samples := |hospitals| * samplesPerHospital;
      totalSamplesTrained := totalSamplesTrained + samples;
      record := TrainingRecord(
        roundNumber, m, imp, |hospitals|, Names(hospitals), Locations(hospitals),
        samples, totalSamplesTrained, trainingTime, ConvergenceStatus(accuracy));
      AppendKeepsHistory(trainingHistory, record);
      trainingHistory := trainingHistory + [record];
    }

    function GetCurrentMetrics(): (r: Status)
      reads this
      ensures r.status == "ready" <==> roundNumber == 0
      ensures r.status == "trained" <==> roundNumber > 0
      ensures r.round == roundNumber && r.metrics == Current() && r.totalSamplesTrained == totalSamplesTrained
    {
      Status(roundNumber, Current(), totalSamplesTrained, if roundNumber == 0 then "ready" else "trained")
    }

    function GetTrainingHistory(): (r: seq<TrainingRecord>)
      reads this
      requires Valid()
      ensures |r| == roundNumber
      ensures forall i :: 0 <= i < |r| ==> r[i].round == i + 1
    {
      trainingHistory
    }

    /** `reset_simulation` re-runs `__init__` with fresh draws. */
    method ResetSimulation(noise: InitNoise)
      requires InitNoiseInRange(noise)
      modifies this
      ensures Valid()
      ensures Current() == InitialMetrics(noise)
      ensures roundNumber == 0 && trainingHistory == [] && totalSamplesTrained == 0
    {
      var m := InitialMetrics(noise);
      accuracy, loss, f1Score, precision, recall := m.accuracy, m.loss, m.f1, m.precision, m.recall;
      roundNumber := 0;
      trainingHistory := [];
      totalSamplesTrained := 0;
    }
  }

  /** The gains `calculate_improvement` can produce: each at least 0.005 in accuracy and never negative. */
  predicate ClampedGain(imp: Improvement)
  {
    imp.accuracy >= 0.005 && imp.loss >= 0.0 && imp.f1 >= 0.0 && imp.precision >= 0.0 && imp.recall >= 0.0
  }

  lemma CalculateImprovementIsClamped(numHospitals: nat, roundNum: nat, noise: real, lossNoise: real)
    ensures ClampedGain(CalculateImprovement(numHospitals, roundNum, noise, lossNoise))
  {
  }

  /** The metrics after a run of rounds with the given gains. */
  function Run(m: Metrics, gains: seq<Improvement>): (r: Metrics)
    requires WithinCaps(m)
    requires forall i :: 0 <= i < |gains| ==> ClampedGain(gains[i])
    ensures WithinCaps(r)
    decreases |gains|
  {
    if gains == [] then m else assert ClampedGain(gains[0]); Run(NextMetrics(m, gains[0]), gains[1..])
  }

  /**
   * Progress: because every gain is at least 0.005, after k rounds accuracy is
   * at least its start plus 0.005 k, or else it has reached the 0.965 cap.
   */
  lemma {:induction false} RunProgress(m: Metrics, gains: seq<Improvement>)
    requires WithinCaps(m)
    requires forall i :: 0 <= i < |gains| ==> ClampedGain(gains[i])
    ensures Run(m, gains).accuracy == 0.965 || Run(m, gains).accuracy >= m.accuracy + 0.005 * |gains| as real
    ensures m.accuracy <= Run(m, gains).accuracy && Run(m, gains).loss <= m.loss
    decreases |gains|
  {
    if gains != [] {
      var next := NextMetrics(m, gains[0]);
      assert ClampedGain(gains[0]);
      RunProgress(next, gains[1..]);
    }
  }

  /** Once accuracy has reached its cap it stays there. */
  lemma {:induction false} RunStaysAtCap(m: Metrics, gains: seq<Improvement>)
    requires WithinCaps(m) && m.accuracy == 0.965
    requires forall i :: 0 <= i < |gains| ==> ClampedGain(gains[i])
    ensures Run(m, gains).accuracy == 0.965
    decreases |gains|
  {
    if gains != [] {
      assert ClampedGain(gains[0]);
      RunStaysAtCap(NextMetrics(m, gains[0]), gains[1..]);
    }
  }
}
