/**
 * The single-prediction result card
 * (frontend/src/components/prediction/PredictionResult.jsx): the display
 * bands and label, the simulated 30-day chart and the gauge angle. The
 * chart's `Math.random()` draws are a parameter, one per day.
 */
module PredictionView {
  import opened Forecasting

  /** `riskScore > 70`. */
  predicate IsHighRisk(score: real) { score > 70.0 }

  /** `riskScore > 30 && riskScore <= 70`. */
  predicate IsMediumRisk(score: real) { score > 30.0 && score <= 70.0 }

  /** The badge text. */
  function Label(score: real): (l: string)
    ensures l == "High Risk" <==> score > 70.0
    ensures l == "Moderate Risk" <==> 30.0 < score <= 70.0
    ensures l == "Low Risk" <==> score <= 30.0
  {
    if IsHighRisk(score) then "High Risk" else if IsMediumRisk(score) then "Moderate Risk" else "Low Risk"
  }

  /** The two band flags never hold together, so exactly one label is shown. */
  lemma BandsExclusive(score: real)
    ensures !(IsHighRisk(score) && IsMediumRisk(score))
    ensures Label(score) in {"High Risk", "Moderate Risk", "Low Risk"}
  {
  }

  /** `Math.min(100, Math.max(0, x))`. */
  function Clamp100(x: real): (r: real)
    ensures 0.0 <= r <= 100.0
    ensures 0.0 <= x <= 100.0 ==> r == x
  {
    if x < 0.0 then 0.0 else if x > 100.0 then 100.0 else x
  }

  /** Clamping never pulls two values further apart. */
  lemma ClampNonExpansive(x: real, y: real)
    ensures Abs(Clamp100(x) - Clamp100(y)) <= Abs(x - y)
  {
  }

  /** The drift of day index `i`: up half a point a day for high risk, down a fifth otherwise. */
  function Drift(score: real, i: nat): real
  {
    if IsHighRisk(score) then (i as real) * 0.5 else -(i as real) * 0.2
  }

  datatype ChartPoint = ChartPoint(day: nat, risk: real)

  /** One point of the chart, from the day's draw in [0, 1). */
  function PointAt(score: real, i: nat, draw: real): ChartPoint
  {
    ChartPoint(i + 1, Clamp100(score + (draw * 10.0 - 5.0) + Drift(score, i)))
  }

  /** `forecastData`: one point per draw, numbered from day 1, each risk within [0, 100]. */
  function ForecastData(score: real, draws: seq<real>): (r: seq<ChartPoint>)
    ensures |r| == |draws|
    ensures forall i :: 0 <= i < |r| ==> r[i].day == i + 1 && 0.0 <= r[i].risk <= 100.0
    ensures forall i :: 0 <= i < |r| ==> r[i] == PointAt(score, i, draws[i])
  {
    seq(|draws|, i requires 0 <= i < |draws| => PointAt(score, i, draws[i]))
  }

  /**
   * Whatever the draws, each point lies within 5 of the clamped trend line
   * `score + drift(i)`: the noise is at most 5 either way and clamping does
   * not widen the gap.
   */
  lemma ForecastNearTrend(score: real, draws: seq<real>, i: nat)
    requires forall k :: 0 <= k < |draws| ==> 0.0 <= draws[k] < 1.0
    requires i < |draws|
    ensures var p := ForecastData(score, draws)[i].risk;
            var trend := Clamp100(score + Drift(score, i));
            Abs(p - trend) <= 5.0
  {
    var x := score + (draws[i] * 10.0 - 5.0) + Drift(score, i);
    var y := score + Drift(score, i);
    ClampNonExpansive(x, y);
  }

  /** The gauge needle's angle, `-45 + 1.8 * score` degrees. */
  function GaugeRotation(score: real): (deg: real)
    ensures 0.0 <= score <= 100.0 ==> -45.0 <= deg <= 135.0
    ensures score == 50.0 ==> deg == 45.0
  {
    -45.0 + score * 1.8
  }

  /** A higher score always turns the needle further. */
  lemma GaugeMonotone(a: real, b: real)
    requires a < b
    ensures GaugeRotation(a) < GaugeRotation(b)
    ensures GaugeRotation(b) - GaugeRotation(a) == (b - a) * 1.8
  {
  }
}
