/**
 * The day-by-day risk forecast of the prediction handler
 * (backend/main.py) and of the patient forecast route
 * (backend/routes/patients.py): each day adds one random variation to the
 * running risk and clamps the result into [10, 99]. The random draws are a
 * parameter, one per day; the date strings are left out.
 */
module Forecasting {

  datatype ForecastDay = ForecastDay(day: nat, riskScore: real)

  /** `max(10, min(99, x))`. */
  function Clamp(x: real): (r: real)
    ensures 10.0 <= r <= 99.0
    ensures 10.0 <= x <= 99.0 ==> r == x
    ensures x > 99.0 ==> r == 99.0
    ensures x < 10.0 ==> r == 10.0
  {
    if x > 99.0 then 99.0 else if x < 10.0 then 10.0 else x
  }

  /** The running risk after each day, starting from `current`. */
  function Trajectory(current: real, variations: seq<real>): (r: seq<real>)
    ensures |r| == |variations|
    ensures forall i :: 0 <= i < |r| ==> 10.0 <= r[i] <= 99.0
    decreases |variations|
  {
    if variations == [] then []
    else
      var next := Clamp(current + variations[0]);
      [next] + Trajectory(next, variations[1..])
  }

  /** Day i's risk is the clamped sum of day i-1's risk (the start for day 0) and day i's draw. */
  lemma {:induction false} TrajectoryStep(current: real, variations: seq<real>, i: nat)
    requires i < |variations|
    ensures Trajectory(current, variations)[i]
            == Clamp((if i == 0 then current else Trajectory(current, variations)[i - 1]) + variations[i])
    decreases i
  {
    if i > 0 {
      var next := Clamp(current + variations[0]);
      TrajectoryStep(next, variations[1..], i - 1);
      assert Trajectory(current, variations)[1..] == Trajectory(next, variations[1..]);
    }
  }

  /**
   * Clamping never moves a risk that is already in [10, 99] further than the
   * draw: after the first day consecutive forecast values differ by at most
   * the size of that day's draw.
   */
  lemma TrajectorySmooth(current: real, variations: seq<real>, i: nat)
    requires 0 < i < |variations|
    ensures var r := Trajectory(current, variations);
            -Abs(variations[i]) <= r[i] - r[i - 1] <= Abs(variations[i])
  {
    TrajectoryStep(current, variations, i);
  }

  function Abs(x: real): (r: real)
    ensures r >= 0.0 && (r == x || r == -x)
  {
    if x >= 0.0 then x else -x
  }

  /** One entry per draw, numbered from day 1, whose risk follows the clamped trajectory from `start`. */
  predicate Follows(forecast: seq<ForecastDay>, start: real, variations: seq<real>)
  {
    && |forecast| == |variations|
    && forall i :: 0 <= i < |forecast| ==> forecast[i] == ForecastDay(i + 1, Trajectory(start, variations)[i])
  }

  /** A forecast that follows the trajectory has days 1..n in order and every risk within [10, 99]. */
  lemma FollowsWithinBounds(forecast: seq<ForecastDay>, start: real, variations: seq<real>)
    requires Follows(forecast, start, variations)
    ensures |forecast| == |variations|
    ensures forall i :: 0 <= i < |forecast| ==> forecast[i].day == i + 1
    ensures forall i :: 0 <= i < |forecast| ==> 10.0 <= forecast[i].riskScore <= 99.0
  {
  }

  /**
   * The forecast loop: one entry per draw, numbered from day 1, whose risk
   * follows the clamped trajectory.
   */
  method ForecastDays(start: real, variations: seq<real>) returns (forecast: seq<ForecastDay>)
    ensures Follows(forecast, start, variations)
  {
    forecast := [];
    var current := start;
    for i := 0 to |variations|
      invariant |forecast| == i
      invariant forall j :: 0 <= j < i ==> forecast[j] == ForecastDay(j + 1, Trajectory(start, variations)[j])
      invariant current == if i == 0 then start else Trajectory(start, variations)[i - 1]
    {
      TrajectoryStep(start, variations, i);
      current := Clamp(current + variations[i]);
      forecast := forecast + [ForecastDay(i + 1, current)];
    }
  }
}
