/**
 * The record shapes of the run tracker and the field constraints its validators enforce
 * (lib/model.ts). Each validator is written as a predicate over a record; the parse of a
 * record is "accept it unchanged if the predicate holds, throw otherwise".
 */
module Model {
  import opened Wrappers

  /** The three run states the store knows. */
  datatype RunStatus = InProgress | Completed | Aborted {
    /** The text the status is stored as in the `run.status` column. */
    function Text(): string {
      match this
      case InProgress => "in_progress"
      case Completed => "completed"
      case Aborted => "aborted"
    }
  }

  /** z.enum(RunStatus): the status column's text read back as a RunStatus. */
  function ParseRunStatus(s: string): (r: Option<RunStatus>)
    ensures r.Some? <==> s == "in_progress" || s == "completed" || s == "aborted"
    ensures r.Some? ==> r.value.Text() == s
  {
    if s == "in_progress" then Some(InProgress)
    else if s == "completed" then Some(Completed)
    else if s == "aborted" then Some(Aborted)
    else None
  }

  lemma RunStatusTextRoundTrip(st: RunStatus)
    ensures ParseRunStatus(st.Text()) == Some(st)
  {
  }

  // ---------------------------------------------------------------- runs

  /** A `run` row as it is read back: every metric and the end timestamp may be NULL. */
  datatype UncompletedRun = UncompletedRun(
    id: int,
    status: RunStatus,
    durationInSeconds: Option<real>,
    distanceInMeters: Option<int>,
    avgPaceInSeconds: Option<int>,
    elevationGainInMeters: Option<real>,
    timestamp: Option<int>)

  /** A finished run: every metric present. */
  datatype CompletedRun = CompletedRun(
    id: int,
    status: RunStatus,
    durationInSeconds: real,
    distanceInMeters: int,
    avgPaceInSeconds: int,
    elevationGainInMeters: real,
    timestamp: int)

  predicate NonNegativeOrNull(x: Option<real>) { x.None? || x.value >= 0.0 }
  predicate NonNegativeIntOrNull(x: Option<int>) { x.None? || x.value >= 0 }

  /** CompletedRunSchema: non-negative id, duration, distance, pace and timestamp; any elevation gain. */
  predicate ValidCompletedRun(r: CompletedRun) {
    && r.id >= 0
    && r.durationInSeconds >= 0.0
    && r.distanceInMeters >= 0
    && r.avgPaceInSeconds >= 0
    && r.timestamp >= 0
  }

  /** UncompletedRunSchema: the same bounds, each metric and the timestamp nullable. */
  predicate ValidUncompletedRun(r: UncompletedRun) {
    && r.id >= 0
    && NonNegativeOrNull(r.durationInSeconds)
    && NonNegativeIntOrNull(r.distanceInMeters)
    && NonNegativeIntOrNull(r.avgPaceInSeconds)
    && NonNegativeIntOrNull(r.timestamp)
  }

  /** A complete run seen through the nullable schema. A complete run is valid exactly when this view is. */
  function AsUncompleted(c: CompletedRun): (u: UncompletedRun)
    ensures ValidCompletedRun(c) <==> ValidUncompletedRun(u)
    ensures u.id == c.id && u.status == c.status
    ensures u.durationInSeconds.Some? && u.distanceInMeters.Some? && u.avgPaceInSeconds.Some?
    ensures u.elevationGainInMeters.Some? && u.timestamp.Some?
  {
    UncompletedRun(c.id, c.status, Some(c.durationInSeconds), Some(c.distanceInMeters),
                   Some(c.avgPaceInSeconds), Some(c.elevationGainInMeters), Some(c.timestamp))
  }

  /** A row with every field null but the id and status satisfies the nullable schema whenever its id is non-negative. */
  lemma NullMetricsAreValid(id: int, st: RunStatus)
    requires id >= 0
    ensures ValidUncompletedRun(UncompletedRun(id, st, None, None, None, None, None))
  {
  }

  // ---------------------------------------------------------------- splits

  datatype UncompletedSplit = UncompletedSplit(runId: int, km: int, avgPaceInSeconds: real, elevationGainInMeters: real)

  datatype CompletedSplit = CompletedSplit(id: int, runId: int, km: int, avgPaceInSeconds: real, elevationGainInMeters: real)

  /** UncompletedSplitSchema: non-negative run id, km and pace; the elevation change may be negative. */
  predicate ValidUncompletedSplit(s: UncompletedSplit) {
    s.runId >= 0 && s.km >= 0 && s.avgPaceInSeconds >= 0.0
  }

  /** CompletedSplitSchema: the same, plus a non-negative id. */
  predicate ValidCompletedSplit(s: CompletedSplit) {
    s.id >= 0 && s.runId >= 0 && s.km >= 0 && s.avgPaceInSeconds >= 0.0
  }

  /** A stored split without its id. A stored split is valid exactly when its id is non-negative and this part is. */
  function SplitWithoutId(s: CompletedSplit): (u: UncompletedSplit)
    ensures ValidCompletedSplit(s) <==> s.id >= 0 && ValidUncompletedSplit(u)
    ensures u.runId == s.runId && u.km == s.km
  {
    UncompletedSplit(s.runId, s.km, s.avgPaceInSeconds, s.elevationGainInMeters)
  }

  // ---------------------------------------------------------------- locations

  /** One GPS sample before it is stored. */
  datatype UncompletedLocation = UncompletedLocation(
    latitude: real, longitude: real, altitudeInMeters: Option<real>, timestamp: int)

  /** One stored `location` row. */
  datatype CompletedLocation = CompletedLocation(
    id: int, runId: int, latitude: real, longitude: real, altitudeInMeters: Option<real>, timestamp: int)

  /** UncompletedLocationSchema: a non-negative timestamp; coordinates and (nullable) altitude unconstrained. */
  predicate ValidUncompletedLocation(l: UncompletedLocation) {
    l.timestamp >= 0
  }

  /** CompletedLocationSchema: the same, plus non-negative id and runId. */
  predicate ValidCompletedLocation(l: CompletedLocation) {
    l.id >= 0 && l.runId >= 0 && l.timestamp >= 0
  }

  /** The sample a stored location holds. A stored location is valid exactly when its ids are non-negative and this sample is. */
  function Sample(l: CompletedLocation): (u: UncompletedLocation)
    ensures ValidCompletedLocation(l) <==> l.id >= 0 && l.runId >= 0 && ValidUncompletedLocation(u)
    ensures u.latitude == l.latitude && u.longitude == l.longitude
    ensures u.altitudeInMeters == l.altitudeInMeters && u.timestamp == l.timestamp
  {
    UncompletedLocation(l.latitude, l.longitude, l.altitudeInMeters, l.timestamp)
  }

  /** A location's validity does not depend on where it is or how high. */
  lemma LocationValidityIgnoresPosition(l: UncompletedLocation, lat: real, lon: real, alt: Option<real>)
    ensures ValidUncompletedLocation(l) == ValidUncompletedLocation(UncompletedLocation(lat, lon, alt, l.timestamp))
  {
  }

  // ---------------------------------------------------------------- run id

  datatype ValidationError = ValidationError

  /** RunIdSchema.parse({ runId }): accepts exactly the non-negative run ids. */
  function ParseRunId(runId: int): (r: Result<int, ValidationError>)
    ensures r.Success? <==> runId >= 0
    ensures r.Success? ==> r.value == runId
  {
    if runId >= 0 then Success(runId) else Failure(ValidationError)
  }

  // ---------------------------------------------------------------- the location provider's sample

  /** expo-location's `LocationObject`, reduced to the fields the core reads. */
  datatype Coords = Coords(latitude: real, longitude: real, altitude: Option<real>)
  datatype LocationObject = LocationObject(coords: Coords, timestamp: int)

  // ---------------------------------------------------------------- display shapes

  /**
   * A run as the run list shows it: the columns `getRuns` selects. ActivityRunSchema, which
   * formats them for display, is not part of this model, so the values are kept as selected.
   */
  datatype ActivityRun = ActivityRun(
    id: int, status: RunStatus, duration: Option<real>, distance: Option<int>,
    avgPace: Option<int>, date: Option<int>)

  /** The overview time windows. */
  datatype Interval = Week | Month | Year | All

  datatype DistanceText = DistanceText(distance: string, unit: string)
  datatype DurationText = DurationText(duration: string, unit: string)

  /** The overview card's four display values. */
  datatype Overview = Overview(
    totalRuns: string, totalDistance: DistanceText, avgPace: string, totalDuration: DurationText)
}
