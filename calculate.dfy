/**
 * The older metric helpers of calculate.ts, over the location provider's samples.
 * date-fns' `differenceInMinutes` is not part of this model and is a parameter.
 */
module Calculate {
  import opened Wrappers
  import opened Model
  import opened Metrics
  import Utils

  /** getDistanceInMeter: geolib's distance between the coordinates of two samples. */
  function DistanceInMeter(dist: Distance, prev: LocationObject, next: LocationObject): nat
  {
    dist(Point(prev.coords.latitude, prev.coords.longitude), Point(next.coords.latitude, next.coords.longitude))
  }

  function ObjPoints(locations: seq<LocationObject>): (pts: seq<Point>)
    ensures |pts| == |locations|
    ensures forall i :: 0 <= i < |locations| ==>
              pts[i] == Point(locations[i].coords.latitude, locations[i].coords.longitude)
  {
    seq(|locations|, i requires 0 <= i < |locations| =>
      Point(locations[i].coords.latitude, locations[i].coords.longitude))
  }

  function ObjAltitudes(locations: seq<LocationObject>): (alts: seq<Option<real>>)
    ensures |alts| == |locations|
    ensures forall i :: 0 <= i < |locations| ==> alts[i] == locations[i].coords.altitude
  {
    seq(|locations|, i requires 0 <= i < |locations| => locations[i].coords.altitude)
  }

  /**
   * getElevationGain: the index loop that adds every rise between consecutive samples,
   * a missing altitude read as 0.
   */
  method GetElevationGain(locations: seq<LocationObject>) returns (totalElevationGain: real)
    ensures totalElevationGain == Climb(ObjAltitudes(locations))
    ensures totalElevationGain >= 0.0
    ensures |locations| < 2 ==> totalElevationGain == 0.0
  {
    if |locations| < 2 {
      return 0.0;
    }
    ghost var alts := ObjAltitudes(locations);
    totalElevationGain := 0.0;
    assert alts[..1] == [alts[0]];
    var i := 1;
    while i < |locations|
      invariant 1 <= i <= |locations|
      invariant totalElevationGain == Climb(alts[..i])
    {
      var prevElevation := locations[i - 1].coords.altitude.GetOr(0.0);
      var nextElevation := locations[i].coords.altitude.GetOr(0.0);
      if nextElevation > prevElevation {
        totalElevationGain := totalElevationGain + (nextElevation - prevElevation);
      }
      ClimbAppend(alts[..i], alts[i]);
      assert alts[..i + 1] == alts[..i] + [alts[i]];
      i := i + 1;
    }
    assert alts[..i] == alts;
  }

  /** The samples converted the way lib/utils.ts converts them. */
  function Converted(locations: seq<LocationObject>): (ls: seq<UncompletedLocation>)
    ensures |ls| == |locations|
    ensures forall i :: 0 <= i < |locations| ==> ls[i] == Utils.ConvertLocationObjectToLocation(locations[i])
  {
    seq(|locations|, i requires 0 <= i < |locations| => Utils.ConvertLocationObjectToLocation(locations[i]))
  }

  /** This loop and the elevation reduce of lib/metrics.ts compute the same gain. */
  lemma ElevationGainAgreesWithMetrics(dist: Distance, locations: seq<LocationObject>)
    requires |locations| > 0
    ensures Climb(ObjAltitudes(locations)) == CalculateRunMetrics(dist, Converted(locations)).elevationGainInMeters
  {
    assert Altitudes(Converted(locations)) == ObjAltitudes(locations);
  }

  /** getTotalDistanceInKilometers: the path length in kilometres, 0 below two samples. */
  function TotalDistanceKm(dist: Distance, locations: seq<LocationObject>): (km: real)
    ensures km * 1000.0 == PathLength(dist, ObjPoints(locations)) as real
    ensures |locations| < 2 ==> km == 0.0
    ensures km >= 0.0
  {
    if |locations| < 2 then 0.0
    else
      DistanceReduceIsPathLength(dist, ObjPoints(locations));
      DistanceReduce(dist, ObjPoints(locations), 0, 0) as real / 1000.0
  }

  /** A JavaScript number: division by zero gives an infinity or NaN rather than an error. */
  datatype JsNumber = Finite(value: real) | PositiveInfinity | NegativeInfinity | NaN

  /** `a / b` in JavaScript, with `b` never a negative zero here. */
  function Divide(a: real, b: real): (q: JsNumber)
    ensures b != 0.0 <==> q.Finite?
    ensures b != 0.0 ==> q.value * b == a
  {
    if b != 0.0 then Finite(a / b)
    else if a > 0.0 then PositiveInfinity
    else if a < 0.0 then NegativeInfinity
    else NaN
  }

  /**
   * getAvgPace: minutes between the two dates per kilometre run. It returns 0 below two
   * samples or without a start date, and has no guard against a zero distance.
   */
  function GetAvgPace(dist: Distance, minutesBetween: (int, int) -> int,
                      locations: seq<LocationObject>, startDate: Option<int>, endDate: int): (pace: JsNumber)
    ensures |locations| < 2 || startDate.None? ==> pace == Finite(0.0)
    ensures |locations| >= 2 && startDate.Some? && PathLength(dist, ObjPoints(locations)) == 0 ==> !pace.Finite?
    ensures |locations| >= 2 && startDate.Some? && PathLength(dist, ObjPoints(locations)) > 0 ==>
              pace.Finite? &&
              pace.value * PathLength(dist, ObjPoints(locations)) as real ==
                1000.0 * minutesBetween(endDate, startDate.value) as real
  {
    if |locations| < 2 || startDate.None? then Finite(0.0)
    else
      var totalDistance := TotalDistanceKm(dist, locations);
      Divide(minutesBetween(endDate, startDate.value) as real, totalDistance)
  }
}
