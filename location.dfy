/**
 * The live read-outs of the running screen (lib/location.ts): distance so far, the pace
 * between the last two samples and the average pace, formatted as the screen shows them.
 * `toFixed(2)` is not part of this model and is a parameter.
 */
module LiveLocation {
  import opened Wrappers
  import opened Strings
  import opened Model
  import opened Metrics
  import Calculate

  /** getTotalDistanceInKilometers: the path length in kilometres, 0 below two samples. */
  function TotalDistanceKm(dist: Distance, locations: seq<LocationObject>): (km: real)
    ensures km * 1000.0 == PathLength(dist, Calculate.ObjPoints(locations)) as real
    ensures |locations| < 2 ==> km == 0.0
    ensures km >= 0.0
  {
    if |locations| < 2 then 0.0
    else
      var totalDistanceInMeter := DistanceReduce(dist, Calculate.ObjPoints(locations), 0, 0);
      DistanceReduceIsPathLength(dist, Calculate.ObjPoints(locations));
      totalDistanceInMeter as real / 1000.0
  }

  /** The two copies of getTotalDistanceInKilometers agree. */
  lemma TotalDistanceAgrees(dist: Distance, locations: seq<LocationObject>)
    ensures TotalDistanceKm(dist, locations) == Calculate.TotalDistanceKm(dist, locations)
  {
  }

  /**
   * getTotalDistanceInKilometersString: "0,00" for no distance, otherwise the two-decimal
   * rendering with its decimal point turned into a comma.
   */
  function TotalDistanceKmString(dist: Distance, toFixed2: real -> string, locations: seq<LocationObject>): (s: string)
    ensures PathLength(dist, Calculate.ObjPoints(locations)) == 0 ==> s == "0,00"
    ensures |locations| < 2 ==> s == "0,00"
    ensures PathLength(dist, Calculate.ObjPoints(locations)) > 0 ==>
              s == ReplaceFirst(toFixed2(TotalDistanceKm(dist, locations)), '.', ',')
  {
    var totalDistance := TotalDistanceKm(dist, locations);
    if totalDistance == 0.0 then "0,00" else ReplaceFirst(toFixed2(totalDistance), '.', ',')
  }

  function Abs(x: int): nat { if x < 0 then -x else x }

  /** `Math.round((pace % 1) * 60)`: the seconds of a non-negative pace in minutes. */
  function SecondsPart(pace: real): (s: nat)
    requires pace >= 0.0
    ensures s <= 60
  {
    Round((pace - pace.Floor as real) * 60.0)
  }

  /** `MM:SS`: two numbers of at least two digits each, joined by a colon. */
  function MinutesSeconds(minutes: nat, seconds: nat): string
  {
    TwoDigits(minutes) + ":" + TwoDigits(seconds)
  }

  /** The rendering of a pace in minutes: the whole minutes and the rounded seconds. */
  function FormatPace(pace: real): string
    requires pace >= 0.0
  {
    MinutesSeconds(pace.Floor, SecondsPart(pace))
  }

  /** Both halves of `MM:SS` can be read back: the colon sits third from the end. */
  lemma MinutesSecondsShape(minutes: nat, seconds: nat)
    requires seconds < 100
    ensures var r := MinutesSeconds(minutes, seconds);
            |r| >= 5 && r[|r| - 3] == ':' &&
            r[..|r| - 3] == TwoDigits(minutes) && r[|r| - 2..] == TwoDigits(seconds)
  {
    var r := MinutesSeconds(minutes, seconds);
    assert r[..|r| - 3] == TwoDigits(minutes);
    assert r[|r| - 2..] == TwoDigits(seconds);
  }

  /**
   * A formatted pace shows the whole minutes before the colon and the rounded seconds,
   * at most 60, after it; each part has at least two digits.
   */
  lemma FormatPaceShape(pace: real)
    requires pace >= 0.0
    ensures var r := FormatPace(pace);
            |r| >= 5 && r[|r| - 3] == ':' &&
            r[..|r| - 3] == TwoDigits(pace.Floor) && r[|r| - 2..] == TwoDigits(SecondsPart(pace)) &&
            SecondsPart(pace) <= 60
  {
    var minutes, seconds := pace.Floor, SecondsPart(pace);
    assert FormatPace(pace) == MinutesSeconds(minutes, seconds);
    MinutesSecondsShape(minutes, seconds);
  }

  /**
   * A pace in the last half second before a whole minute is shown with 60 seconds rather
   * than as the next minute.
   */
  lemma SixtySeconds(pace: real)
    requires 119.0 / 120.0 <= pace < 1.0
    ensures SecondsPart(pace) == 60
    ensures FormatPace(pace) == "00:60"
  {
    assert pace.Floor == 0;
    assert 59.5 <= pace * 60.0 < 60.0;
    ZeroSixty(pace.Floor, SecondsPart(pace));
  }

  lemma ZeroSixty(minutes: nat, seconds: nat)
    requires minutes == 0 && seconds == 60
    ensures MinutesSeconds(minutes, seconds) == "00:60"
  {
    ZeroInTwoDigits();
    SixtyInTwoDigits();
    JoinedDigits(minutes, seconds, "00", "60");
    ColonJoin();
  }

  lemma JoinedDigits(minutes: nat, seconds: nat, mm: string, ss: string)
    requires TwoDigits(minutes) == mm && TwoDigits(seconds) == ss
    ensures MinutesSeconds(minutes, seconds) == mm + ":" + ss
  {
  }

  lemma ColonJoin()
    ensures "00" + ":" + "60" == "00:60"
  {
  }

  lemma ZeroInTwoDigits()
    ensures TwoDigits(0) == "00"
  {
    assert NatToDecimal(0) == "0";
    var p := PadStart("0", 2, '0');
    assert p[1..] == "0" && p[0] == '0';
    assert p == "00";
  }

  lemma SixtyInTwoDigits()
    ensures TwoDigits(60) == "60"
  {
    assert NatToDecimal(60) == "60" by {
      assert NatToDecimal(6) == "6";
    }
  }

  /**
   * Minutes per kilometre over `metres` covered in `millis` milliseconds. getPace writes
   * the quotient as `differenceInMinutes / (distanceInMeters / 1000)`; MinutesPerKmScale
   * shows it is the same number.
   */
  function MinutesPerKm(millis: nat, metres: nat): (pace: real)
    requires metres > 0
    ensures pace >= 0.0
  {
    millis as real / (60.0 * metres as real)
  }

  /**
   * The pace from `one` to `two` in minutes per kilometre: their distance apart over the
   * absolute time between them; None when they lie at the same place.
   */
  function PaceBetween(dist: Distance, one: LocationObject, two: LocationObject): (pace: Option<real>)
    ensures pace.Some? ==> pace.value >= 0.0
  {
    var metres := Calculate.DistanceInMeter(dist, one, two);
    if metres == 0 then None else Some(MinutesPerKm(Abs(two.timestamp - one.timestamp), metres))
  }

  /** A pace as the screen shows it, "00:00" when there is none. */
  function PaceText(pace: Option<real>): string
    requires pace.Some? ==> pace.value >= 0.0
  {
    if pace.None? then "00:00" else FormatPace(pace.value)
  }

  /**
   * getPace: the minutes per kilometre between the last two samples, "00:00" below two
   * samples or when the last two lie at the same place.
   */
  function GetPace(dist: Distance, locations: seq<LocationObject>): (r: string)
    ensures |locations| < 2 ==> r == "00:00"
    ensures |locations| >= 2 ==> r == PaceText(PaceBetween(dist, locations[|locations| - 2], locations[|locations| - 1]))
    ensures (|locations| >= 2 &&
             Calculate.DistanceInMeter(dist, locations[|locations| - 2], locations[|locations| - 1]) == 0) ==>
              r == "00:00"
    ensures (|locations| >= 2 &&
             Calculate.DistanceInMeter(dist, locations[|locations| - 2], locations[|locations| - 1]) > 0) ==>
              r == FormatPace(MinutesPerKm(Abs(locations[|locations| - 1].timestamp - locations[|locations| - 2].timestamp),
                                           Calculate.DistanceInMeter(dist, locations[|locations| - 2], locations[|locations| - 1])))
  {
    if |locations| < 2 then "00:00"
    else PaceText(PaceBetween(dist, locations[|locations| - 2], locations[|locations| - 1]))
  }

  /** Only the last two samples matter to the current pace. */
  lemma PaceUsesLastTwo(dist: Distance, earlier: seq<LocationObject>, one: LocationObject, two: LocationObject)
    ensures GetPace(dist, earlier + [one, two]) == GetPace(dist, [one, two])
  {
    var s := earlier + [one, two];
    assert s[|s| - 2] == one && s[|s| - 1] == two;
  }

  /** Swapping the two samples' times leaves the pace unchanged: only the size of the gap counts. */
  lemma PaceIgnoresTimeOrder(dist: Distance, one: LocationObject, two: LocationObject)
    ensures PaceBetween(dist, one, two) ==
            PaceBetween(dist, LocationObject(one.coords, two.timestamp), LocationObject(two.coords, one.timestamp))
  {
  }

  /** The minutes between the samples over the kilometres between them is MinutesPerKm. */
  lemma MinutesPerKmScale(millis: nat, metres: nat)
    requires metres > 0
    ensures (millis as real / 1000.0 / 60.0) / (metres as real / 1000.0) == MinutesPerKm(millis, metres)
  {
  }

  /** Dividing the minutes by the distance in kilometres is the pace over the distance in metres. */
  lemma PerKilometre(millis: nat, metres: nat, km: real)
    requires metres > 0 && km * 1000.0 == metres as real
    ensures (millis as real / 1000.0 / 60.0) / km == MinutesPerKm(millis, metres)
  {
    assert km == metres as real / 1000.0;
  }

  /**
   * getAvgPace: the minutes between the first and last sample per kilometre of the
   * whole track, "00:00" below two samples or without distance.
   */
  function GetAvgPace(dist: Distance, locations: seq<LocationObject>): (r: string)
    ensures |locations| < 2 ==> r == "00:00"
    ensures PathLength(dist, Calculate.ObjPoints(locations)) == 0 ==> r == "00:00"
    ensures |locations| >= 2 && PathLength(dist, Calculate.ObjPoints(locations)) > 0 ==>
              r == FormatPace(MinutesPerKm(Abs(locations[0].timestamp - locations[|locations| - 1].timestamp),
                                           PathLength(dist, Calculate.ObjPoints(locations))))
  {
    if |locations| < 2 then "00:00"
    else
      var totalDistance := TotalDistanceKm(dist, locations);
      if totalDistance == 0.0 then "00:00"
      else
        var differenceInMinutes :=
          Abs(locations[0].timestamp - locations[|locations| - 1].timestamp) as real / 1000.0 / 60.0;
        var avgPaceInMinutes := differenceInMinutes / totalDistance;
        PerKilometre(Abs(locations[0].timestamp - locations[|locations| - 1].timestamp),
                     PathLength(dist, Calculate.ObjPoints(locations)), totalDistance);
        FormatPace(avgPaceInMinutes)
  }
}
