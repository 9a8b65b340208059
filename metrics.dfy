/**
 * The metrics engine (lib/metrics.ts): it folds the ordered samples of one run into
 * duration, distance, elevation gain and average pace.
 *
 * The great-circle distance comes from geolib and is not part of this model: every
 * function here takes it as a parameter `dist`, of which nothing is assumed but that it
 * returns a whole number of metres (geolib's default accuracy of 1 m).
 */
module Metrics {
  import opened Wrappers
  import opened Model

  /** The coordinate pair geolib's `getDistance` receives. */
  datatype Point = Point(latitude: real, longitude: real)

  /** metres between two points, as geolib's `getDistance` computes them */
  type Distance = (Point, Point) -> nat

  // ---------------------------------------------------------------- rounding

  /** `Math.round`: the nearest integer, halves rounded up. */
  function Round(x: real): (r: int)
    ensures r as real - 0.5 <= x < r as real + 0.5
  {
    (x + 0.5).Floor
  }

  lemma RoundMonotonic(x: real, y: real)
    requires x <= y
    ensures Round(x) <= Round(y)
  {
  }

  // ---------------------------------------------------------------- distance

  /** The length of the path through `pts`: the sum of `dist` over every consecutive pair. */
  function PathLength(dist: Distance, pts: seq<Point>): nat
  {
    if |pts| < 2 then 0 else dist(pts[0], pts[1]) + PathLength(dist, pts[1..])
  }

  /**
   * `locations.reduce((acc, curr, i) => i === 0 ? acc : acc + getDistance(prev, curr), acc)`
   * started at index `i`: the element at index 0 adds nothing, every later one adds its
   * distance from its predecessor.
   */
  function DistanceReduce(dist: Distance, pts: seq<Point>, i: nat, acc: int): int
    requires i <= |pts|
    decreases |pts| - i
  {
    if i == |pts| then acc
    else DistanceReduce(dist, pts, i + 1, if i == 0 then acc else acc + dist(pts[i - 1], pts[i]))
  }

  lemma {:induction false} DistanceReduceFrom(dist: Distance, pts: seq<Point>, i: nat, acc: int)
    requires 1 <= i <= |pts|
    ensures DistanceReduce(dist, pts, i, acc) == acc + PathLength(dist, pts[i - 1..])
    decreases |pts| - i
  {
    if i < |pts| {
      DistanceReduceFrom(dist, pts, i + 1, acc + dist(pts[i - 1], pts[i]));
      assert pts[i - 1..][1..] == pts[i..];
    }
  }

  /** The reduce of lib/metrics.ts, started at 0 with 0, is the path length. */
  lemma {:induction false} DistanceReduceIsPathLength(dist: Distance, pts: seq<Point>)
    ensures DistanceReduce(dist, pts, 0, 0) == PathLength(dist, pts)
  {
    if |pts| > 0 {
      DistanceReduceFrom(dist, pts, 1, 0);
      assert pts[0..] == pts;
    }
  }

  /** Appending a point adds exactly the distance from the old last point to it. */
  lemma {:induction false} PathLengthAppend(dist: Distance, pts: seq<Point>, p: Point)
    ensures PathLength(dist, pts + [p]) ==
            PathLength(dist, pts) + (if |pts| == 0 then 0 else dist(pts[|pts| - 1], p))
  {
    if |pts| >= 2 {
      assert (pts + [p])[1..] == pts[1..] + [p];
      PathLengthAppend(dist, pts[1..], p);
    }
  }

  /** A longer track is never shorter. */
  lemma {:induction false} PathLengthGrows(dist: Distance, pts: seq<Point>, p: Point)
    ensures PathLength(dist, pts + [p]) >= PathLength(dist, pts)
  {
    PathLengthAppend(dist, pts, p);
  }

  // ---------------------------------------------------------------- elevation

  /** `altitudeInMeters ?? 0` */
  function AltitudeOrZero(a: Option<real>): real { a.GetOr(0.0) }

  /** `Math.max(0, curr - prev)` with a missing altitude read as 0. */
  function Rise(prev: Option<real>, curr: Option<real>): (r: real)
    ensures r >= 0.0
    ensures r == 0.0 <==> AltitudeOrZero(curr) <= AltitudeOrZero(prev)
  {
    var d := AltitudeOrZero(curr) - AltitudeOrZero(prev);
    if 0.0 >= d then 0.0 else d
  }

  /** The elevation gain of an altitude track: the sum of its non-negative rises. */
  function Climb(alts: seq<Option<real>>): (r: real)
    ensures r >= 0.0
  {
    if |alts| < 2 then 0.0 else Rise(alts[0], alts[1]) + Climb(alts[1..])
  }

  /** The elevation `reduce` of lib/metrics.ts started at index `i`. */
  function ElevationReduce(alts: seq<Option<real>>, i: nat, acc: real): real
    requires i <= |alts|
    decreases |alts| - i
  {
    if i == |alts| then acc
    else ElevationReduce(alts, i + 1, if i == 0 then acc else acc + Rise(alts[i - 1], alts[i]))
  }

  lemma {:induction false} ElevationReduceFrom(alts: seq<Option<real>>, i: nat, acc: real)
    requires 1 <= i <= |alts|
    ensures ElevationReduce(alts, i, acc) == acc + Climb(alts[i - 1..])
    decreases |alts| - i
  {
    if i < |alts| {
      ElevationReduceFrom(alts, i + 1, acc + Rise(alts[i - 1], alts[i]));
      assert alts[i - 1..][1..] == alts[i..];
    }
  }

  lemma {:induction false} ElevationReduceIsClimb(alts: seq<Option<real>>)
    ensures ElevationReduce(alts, 0, 0.0) == Climb(alts)
  {
    if |alts| > 0 {
      ElevationReduceFrom(alts, 1, 0.0);
      assert alts[0..] == alts;
    }
  }

  lemma {:induction false} ClimbAppend(alts: seq<Option<real>>, a: Option<real>)
    ensures Climb(alts + [a]) == Climb(alts) + (if |alts| == 0 then 0.0 else Rise(alts[|alts| - 1], a))
  {
    if |alts| >= 2 {
      assert (alts + [a])[1..] == alts[1..] + [a];
      ClimbAppend(alts[1..], a);
    }
  }

  /** A longer track never has less elevation gain. */
  lemma {:induction false} ClimbGrows(alts: seq<Option<real>>, a: Option<real>)
    ensures Climb(alts + [a]) >= Climb(alts)
  {
    ClimbAppend(alts, a);
  }

  /** With every altitude missing there is no elevation gain. */
  lemma {:induction false} ClimbWithoutAltitudes(alts: seq<Option<real>>)
    requires forall i :: 0 <= i < |alts| ==> alts[i].None?
    ensures Climb(alts) == 0.0
  {
    if |alts| >= 2 {
      ClimbWithoutAltitudes(alts[1..]);
    }
  }

  // ---------------------------------------------------------------- the run metrics

  datatype RunMetrics = RunMetrics(
    durationInSeconds: real, distanceInMeters: int, elevationGainInMeters: real, avgPaceInSeconds: int)

  function Points(locations: seq<UncompletedLocation>): (pts: seq<Point>)
    ensures |pts| == |locations|
    ensures forall i :: 0 <= i < |locations| ==>
              pts[i] == Point(locations[i].latitude, locations[i].longitude)
  {
    seq(|locations|, i requires 0 <= i < |locations| => Point(locations[i].latitude, locations[i].longitude))
  }

  function Altitudes(locations: seq<UncompletedLocation>): (alts: seq<Option<real>>)
    ensures |alts| == |locations|
    ensures forall i :: 0 <= i < |locations| ==> alts[i] == locations[i].altitudeInMeters
  {
    seq(|locations|, i requires 0 <= i < |locations| => locations[i].altitudeInMeters)
  }

  /** Timestamps never decrease along the sequence. */
  predicate TimeOrdered(locations: seq<UncompletedLocation>) {
    forall i, j :: 0 <= i < j < |locations| ==> locations[i].timestamp <= locations[j].timestamp
  }

  /**
   * `duration / (distance / 1000)` rounded, or 0 when no distance was covered: seconds
   * per kilometre.
   */
  function AvgPace(durationInSeconds: real, distanceInMeters: int): (pace: int)
    ensures distanceInMeters <= 0 ==> pace == 0
    ensures distanceInMeters > 0 ==>
              pace as real - 0.5 <= durationInSeconds * 1000.0 / distanceInMeters as real < pace as real + 0.5
    ensures durationInSeconds >= 0.0 ==> pace >= 0
  {
    if distanceInMeters > 0 then
      var q := durationInSeconds / (distanceInMeters as real / 1000.0);
      assert q == durationInSeconds * 1000.0 / distanceInMeters as real;
      Round(q)
    else 0
  }

  /** calculateRunMetrics: the metrics of a non-empty, ordered sample sequence. */
  function CalculateRunMetrics(dist: Distance, locations: seq<UncompletedLocation>): (m: RunMetrics)
    requires |locations| > 0
    ensures m.durationInSeconds * 1000.0 ==
              (locations[|locations| - 1].timestamp - locations[0].timestamp) as real
    ensures m.distanceInMeters == PathLength(dist, Points(locations))
    ensures m.elevationGainInMeters == Climb(Altitudes(locations))
    ensures m.avgPaceInSeconds == AvgPace(m.durationInSeconds, m.distanceInMeters)
    ensures |locations| == 1 ==>
              m.durationInSeconds == 0.0 && m.distanceInMeters == 0 &&
              m.elevationGainInMeters == 0.0 && m.avgPaceInSeconds == 0
    ensures TimeOrdered(locations) ==> m.durationInSeconds >= 0.0 && m.avgPaceInSeconds >= 0
    ensures m.distanceInMeters >= 0 && m.elevationGainInMeters >= 0.0
  {
    var start := locations[0].timestamp;
    var end := locations[|locations| - 1].timestamp;
    var durationInSeconds := (end - start) as real / 1000.0;
    var distanceInMeters := DistanceReduce(dist, Points(locations), 0, 0);
    var elevationGainInMeters := ElevationReduce(Altitudes(locations), 0, 0.0);
    DistanceReduceIsPathLength(dist, Points(locations));
    ElevationReduceIsClimb(Altitudes(locations));
    RunMetrics(durationInSeconds, distanceInMeters, elevationGainInMeters,
               AvgPace(durationInSeconds, distanceInMeters))
  }

  /** One more sample never lowers the distance or the elevation gain. */
  lemma {:induction false} MetricsGrowWithSamples(dist: Distance, locations: seq<UncompletedLocation>, l: UncompletedLocation)
    requires |locations| > 0
    ensures CalculateRunMetrics(dist, locations + [l]).distanceInMeters >= CalculateRunMetrics(dist, locations).distanceInMeters
    ensures CalculateRunMetrics(dist, locations + [l]).elevationGainInMeters >= CalculateRunMetrics(dist, locations).elevationGainInMeters
  {
    assert Points(locations + [l]) == Points(locations) + [Point(l.latitude, l.longitude)];
    assert Altitudes(locations + [l]) == Altitudes(locations) + [l.altitudeInMeters];
    PathLengthGrows(dist, Points(locations), Point(l.latitude, l.longitude));
    ClimbGrows(Altitudes(locations), l.altitudeInMeters);
  }

  /** Samples without altitude give no elevation gain, wherever they lie. */
  lemma {:induction false} NoAltitudeNoGain(dist: Distance, locations: seq<UncompletedLocation>)
    requires |locations| > 0
    requires forall i :: 0 <= i < |locations| ==> locations[i].altitudeInMeters.None?
    ensures CalculateRunMetrics(dist, locations).elevationGainInMeters == 0.0
  {
    ClimbWithoutAltitudes(Altitudes(locations));
  }
}
