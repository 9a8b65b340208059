/**
 * The run store (lib/query.ts): three tables, `run`, `location` and `split`, with
 * AUTOINCREMENT ids counted from 1 and foreign keys from a location or a split to its run
 * that cascade on delete; the updates the app issues against them, and its two read
 * queries, the paged run list and the interval overview.
 *
 * The tables are the fields of `RunDb`; each of its methods is proved against a function
 * of the tables before the call (`AfterCreate`, `AfterDelete`, ...), and what the source
 * promises is proved about those functions.
 */
module Query {
  import opened Wrappers
  import opened Model
  import opened Metrics
  import opened Rows
  import Utils

  /** Why a store call throws: a schema parse, a foreign-key check or a failed write. */
  datatype DbError = Invalid | ForeignKeyViolation | WriteFailed

  /** calculateSplitMetrics (not part of this model): the splits of a run's ordered samples. */
  type SplitMetrics = (seq<CompletedLocation>, int) -> seq<UncompletedSplit>

  /** The contents of the three tables and the next AUTOINCREMENT id of each. */
  datatype Tables = Tables(
    runs: seq<UncompletedRun>,
    locations: seq<CompletedLocation>,
    splits: seq<CompletedSplit>,
    nextRunId: int,
    nextLocationId: int,
    nextSplitId: int)

  /** The tables as `initDatabase` creates them. */
  const EmptyTables := Tables([], [], [], 1, 1, 1)

  function RunIds(runs: seq<UncompletedRun>): set<int> {
    set r | r in runs :: r.id
  }

  /** A run row carries no metric while in progress and every metric once finished. */
  predicate Settled(r: UncompletedRun) {
    if r.status == InProgress then
      r.durationInSeconds.None? && r.distanceInMeters.None? && r.avgPaceInSeconds.None? &&
      r.elevationGainInMeters.None? && r.timestamp.None?
    else
      r.durationInSeconds.Some? && r.distanceInMeters.Some? && r.avgPaceInSeconds.Some? &&
      r.elevationGainInMeters.Some? && r.timestamp.Some?
  }

  function RunKey(r: UncompletedRun): int { r.id }
  function LocationKey(l: CompletedLocation): int { l.id }
  function SplitKey(s: CompletedSplit): int { s.id }

  /**
   * What every operation keeps: ids distinct within each table (the primary keys) and below
   * their counters, each location and split pointing at an existing run, rows the schemas
   * accept, and run rows settled.
   */
  predicate TablesValid(t: Tables) {
    && t.nextRunId >= 1 && t.nextLocationId >= 1 && t.nextSplitId >= 1
    && DistinctBy(t.runs, RunKey) && DistinctBy(t.locations, LocationKey) && DistinctBy(t.splits, SplitKey)
    && (forall r | r in t.runs :: 1 <= r.id < t.nextRunId && ValidUncompletedRun(r) && Settled(r))
    && (forall l | l in t.locations ::
          1 <= l.id < t.nextLocationId && l.runId in RunIds(t.runs) && ValidCompletedLocation(l))
    && (forall s | s in t.splits :: 1 <= s.id < t.nextSplitId && s.runId in RunIds(t.runs))
  }

  lemma EmptyTablesValid()
    ensures TablesValid(EmptyTables)
  {
  }

  // ---------------------------------------------------------------- createRun

  /** The row `INSERT INTO run DEFAULT VALUES` writes: in progress, every other column null. */
  function NewRun(id: int): UncompletedRun {
    UncompletedRun(id, InProgress, None, None, None, None, None)
  }

  /** createRun: the tables afterwards and the id of the new row. */
  function AfterCreate(t: Tables): (Tables, int) {
    (t.(runs := t.runs + [NewRun(t.nextRunId)], nextRunId := t.nextRunId + 1), t.nextRunId)
  }

  /** createRun adds one in-progress run under an id no run had, and keeps the tables valid. */
  lemma CreateRunFresh(t: Tables)
    requires TablesValid(t)
    ensures var (t', id) := AfterCreate(t);
            && TablesValid(t')
            && id >= 1 && id !in RunIds(t.runs)
            && RunIds(t'.runs) == RunIds(t.runs) + {id}
            && NewRun(id) in t'.runs
            && t'.locations == t.locations && t'.splits == t.splits
  {
    var (t', id) := AfterCreate(t);
    assert forall r :: r in t'.runs <==> r in t.runs || r == NewRun(id);
    assert RunIds(t'.runs) == RunIds(t.runs) + {id};
  }

  // ---------------------------------------------------------------- getLocationsForRun

  function Timestamp(l: CompletedLocation): int { l.timestamp }

  function OfRun(runId: int): CompletedLocation -> bool {
    (l: CompletedLocation) => l.runId == runId
  }

  /** getLocationsForRun: `WHERE runId = ? ORDER BY timestamp ASC`. */
  function LocationsFor(t: Tables, runId: int): (ls: seq<CompletedLocation>)
    ensures SortedBy(ls, Timestamp)
    ensures multiset(ls) == multiset(Filter(t.locations, OfRun(runId)))
    ensures forall l :: l in ls <==> l in t.locations && l.runId == runId
  {
    var ls := SortBy(Filter(t.locations, OfRun(runId)), Timestamp);
    assert forall l :: l in ls <==> l in multiset(ls);
    ls
  }

  /** The locations of a run, seen as the samples calculateRunMetrics takes. */
  function Samples(ls: seq<CompletedLocation>): (s: seq<UncompletedLocation>)
    ensures |s| == |ls|
    ensures forall i :: 0 <= i < |ls| ==> s[i] == Sample(ls[i])
  {
    seq(|ls|, i requires 0 <= i < |ls| => Sample(ls[i]))
  }

  /** The samples read back for a run are in time order. */
  lemma SamplesInTimeOrder(t: Tables, runId: int)
    ensures TimeOrdered(Samples(LocationsFor(t, runId)))
  {
    var ls := LocationsFor(t, runId);
    var s := Samples(ls);
    forall i, j | 0 <= i < j < |s| ensures s[i].timestamp <= s[j].timestamp {
      assert Timestamp(ls[i]) <= Timestamp(ls[j]);
    }
  }

  // ---------------------------------------------------------------- deleteRun

  function NotRun(id: int): UncompletedRun -> bool {
    (r: UncompletedRun) => r.id != id
  }

  function NotOfRun(runId: int): CompletedLocation -> bool {
    (l: CompletedLocation) => l.runId != runId
  }

  function SplitNotOfRun(runId: int): CompletedSplit -> bool {
    (s: CompletedSplit) => s.runId != runId
  }

  /** deleteRun: the run rows with that id go, and the cascade takes their locations and splits. */
  function AfterDelete(t: Tables, runId: int): Tables {
    t.(runs := Filter(t.runs, NotRun(runId)),
       locations := Filter(t.locations, NotOfRun(runId)),
       splits := Filter(t.splits, SplitNotOfRun(runId)))
  }

  /**
   * deleteRun removes the run and everything that points at it, keeps every other row,
   * and keeps the tables valid.
   */
  lemma DeleteRunCascades(t: Tables, runId: int)
    requires TablesValid(t)
    ensures var t' := AfterDelete(t, runId);
            && TablesValid(t')
            && RunIds(t'.runs) == RunIds(t.runs) - {runId}
            && (forall r :: r in t'.runs <==> r in t.runs && r.id != runId)
            && (forall l :: l in t'.locations <==> l in t.locations && l.runId != runId)
            && (forall s :: s in t'.splits <==> s in t.splits && s.runId != runId)
            && LocationsFor(t', runId) == []
  {
    var t' := AfterDelete(t, runId);
    FilterDistinct(t.runs, NotRun(runId), RunKey);
    FilterDistinct(t.locations, NotOfRun(runId), LocationKey);
    FilterDistinct(t.splits, SplitNotOfRun(runId), SplitKey);
    assert forall r :: r in t'.runs <==> r in t.runs && r.id != runId;
    assert RunIds(t'.runs) == RunIds(t.runs) - {runId};
  }

  // ---------------------------------------------------------------- insertLocation

  /** The `location` row insertLocation writes for a converted sample. */
  function LocationRow(id: int, runId: int, l: UncompletedLocation): CompletedLocation {
    CompletedLocation(id, runId, l.latitude, l.longitude, l.altitudeInMeters, l.timestamp)
  }

  /**
   * insertLocation: RunIdSchema, then UncompletedLocationSchema, then the foreign key; on
   * success the new row's id.
   */
  function AfterInsertLocation(t: Tables, runId: int, obj: LocationObject): (Tables, Result<int, DbError>) {
    var location := Utils.ConvertLocationObjectToLocation(obj);
    var parsedRun := ParseRunId(runId);
    if parsedRun.Failure? then (t, Failure(Invalid))
    else if !ValidUncompletedLocation(location) then (t, Failure(Invalid))
    else if parsedRun.value !in RunIds(t.runs) then (t, Failure(ForeignKeyViolation))
    else
      (t.(locations := t.locations + [LocationRow(t.nextLocationId, parsedRun.value, location)],
          nextLocationId := t.nextLocationId + 1),
       Success(t.nextLocationId))
  }

  /**
   * insertLocation succeeds exactly for a non-negative run id of an existing run and a
   * sample with a non-negative time; it then appends the sample under a new id and changes
   * nothing else, and otherwise changes nothing.
   */
  lemma InsertLocationOutcome(t: Tables, runId: int, obj: LocationObject)
    requires TablesValid(t)
    ensures var (t', r) := AfterInsertLocation(t, runId, obj);
            && TablesValid(t')
            && (r.Success? <==> runId >= 0 && obj.timestamp >= 0 && runId in RunIds(t.runs))
            && (r == Failure(ForeignKeyViolation) <==> runId >= 0 && obj.timestamp >= 0 && runId !in RunIds(t.runs))
            && (r.Failure? ==> t' == t)
            && (r.Success? ==>
                  && t'.runs == t.runs && t'.splits == t.splits
                  && (forall l | l in t.locations :: l.id < r.value)
                  && t'.locations == t.locations + [CompletedLocation(r.value, runId, obj.coords.latitude,
                                                                      obj.coords.longitude, obj.coords.altitude,
                                                                      obj.timestamp)])
  {
  }

  // ---------------------------------------------------------------- insertSplits

  /** The `split` rows for `rows`, numbered from `firstId`, all under `runId`. */
  function Numbered(rows: seq<UncompletedSplit>, runId: int, firstId: int): (ss: seq<CompletedSplit>)
    ensures |ss| == |rows|
    ensures forall i :: 0 <= i < |rows| ==>
              ss[i] == CompletedSplit(firstId + i, runId, rows[i].km, rows[i].avgPaceInSeconds,
                                      rows[i].elevationGainInMeters)
  {
    seq(|rows|, i requires 0 <= i < |rows| =>
      CompletedSplit(firstId + i, runId, rows[i].km, rows[i].avgPaceInSeconds, rows[i].elevationGainInMeters))
  }

  /** One more INSERT adds the next numbered row. */
  lemma NumberedAppend(rows: seq<UncompletedSplit>, k: nat, runId: int, firstId: int)
    requires k < |rows|
    ensures Numbered(rows[..k + 1], runId, firstId) ==
            Numbered(rows[..k], runId, firstId) +
            [CompletedSplit(firstId + k, runId, rows[k].km, rows[k].avgPaceInSeconds, rows[k].elevationGainInMeters)]
  {
    var a := Numbered(rows[..k + 1], runId, firstId);
    var b := Numbered(rows[..k], runId, firstId) +
             [CompletedSplit(firstId + k, runId, rows[k].km, rows[k].avgPaceInSeconds, rows[k].elevationGainInMeters)];
    assert |a| == |b|;
    forall i | 0 <= i < |a| ensures a[i] == b[i] {
      assert rows[..k + 1][i] == rows[i];
      if i < k {
        assert rows[..k][i] == rows[i];
      }
    }
  }

  /** How many of `n` INSERTs go through when the one at index `failAt`, if any, fails. */
  function Inserted(n: nat, failAt: Option<nat>): (k: nat)
    ensures k <= n
    ensures k < n <==> failAt.Some? && failAt.value < n
  {
    if failAt.Some? && failAt.value < n then failAt.value else n
  }

  /**
   * insertSplits: the splits of the run's ordered locations, inserted one by one under the
   * given run id; nothing to do without splits, and the first failing INSERT (the foreign
   * key, or a write failure at index `failAt`) throws with the earlier rows kept.
   */
  function AfterInsertSplits(t: Tables, runId: int, splitFn: SplitMetrics, failAt: Option<nat>)
    : (Tables, Result<(), DbError>)
  {
    var rows := splitFn(LocationsFor(t, runId), runId);
    if rows == [] then (t, Success(()))
    else if runId !in RunIds(t.runs) then (t, Failure(ForeignKeyViolation))
    else
      var n := Inserted(|rows|, failAt);
      (t.(splits := t.splits + Numbered(rows[..n], runId, t.nextSplitId), nextSplitId := t.nextSplitId + n),
       if n < |rows| then Failure(WriteFailed) else Success(()))
  }

  /**
   * insertSplits keeps the tables valid and touches only the split table; for an existing
   * run it adds a prefix of the computed splits under fresh ids, all of them exactly when
   * no write fails.
   */
  lemma InsertSplitsOutcome(t: Tables, runId: int, splitFn: SplitMetrics, failAt: Option<nat>)
    requires TablesValid(t)
    ensures var (t', r) := AfterInsertSplits(t, runId, splitFn, failAt);
            var rows := splitFn(LocationsFor(t, runId), runId);
            && TablesValid(t')
            && t'.runs == t.runs && t'.locations == t.locations
            && (rows == [] ==> t' == t && r == Success(()))
            && (runId !in RunIds(t.runs) && rows != [] ==> t' == t && r == Failure(ForeignKeyViolation))
            && (runId in RunIds(t.runs) ==>
                  && (r.Success? <==> failAt.None? || failAt.value >= |rows|)
                  && (r.Failure? ==> r.error == WriteFailed)
                  && (exists k :: 0 <= k <= |rows| && t'.splits == t.splits + Numbered(rows[..k], runId, t.nextSplitId))
                  && (r.Success? ==> t'.splits == t.splits + Numbered(rows, runId, t.nextSplitId)))
  {
    var rows := splitFn(LocationsFor(t, runId), runId);
    if rows == [] {
      assert rows[..0] == rows;
      assert t.splits + Numbered(rows[..0], runId, t.nextSplitId) == t.splits;
    } else if runId in RunIds(t.runs) {
      InsertSplitsWritten(t, runId, splitFn, failAt);
    }
  }

  /** The case of InsertSplitsOutcome where the run exists and there are splits to write. */
  lemma InsertSplitsWritten(t: Tables, runId: int, splitFn: SplitMetrics, failAt: Option<nat>)
    requires TablesValid(t)
    requires runId in RunIds(t.runs) && splitFn(LocationsFor(t, runId), runId) != []
    ensures var (t', r) := AfterInsertSplits(t, runId, splitFn, failAt);
            var rows := splitFn(LocationsFor(t, runId), runId);
            && TablesValid(t')
            && t'.runs == t.runs && t'.locations == t.locations
            && (r.Success? <==> failAt.None? || failAt.value >= |rows|)
            && (r.Failure? ==> r.error == WriteFailed)
            && (exists k :: 0 <= k <= |rows| && t'.splits == t.splits + Numbered(rows[..k], runId, t.nextSplitId))
            && (r.Success? ==> t'.splits == t.splits + Numbered(rows, runId, t.nextSplitId))
  {
    var rows := splitFn(LocationsFor(t, runId), runId);
    var n := Inserted(|rows|, failAt);
    assert rows[..|rows|] == rows;
    NumberedSplitsValid(t, rows[..n], runId);
  }

  /** insertSplits for an existing run stops after exactly the writes that go through. */
  lemma InsertSplitsExit(t: Tables, runId: int, splitFn: SplitMetrics, failAt: Option<nat>, k: nat)
    requires TablesValid(t)
    requires splitFn(LocationsFor(t, runId), runId) != [] && runId in RunIds(t.runs)
    requires k == Inserted(|splitFn(LocationsFor(t, runId), runId)|, failAt)
    ensures var rows := splitFn(LocationsFor(t, runId), runId);
            var t' := t.(splits := t.splits + Numbered(rows[..k], runId, t.nextSplitId),
                         nextSplitId := t.nextSplitId + k);
            && AfterInsertSplits(t, runId, splitFn, failAt) ==
               (t', if k < |rows| then Failure(WriteFailed) else Success(()))
            && TablesValid(t')
  {
    InsertSplitsOutcome(t, runId, splitFn, failAt);
  }

  /** Appending numbered splits of an existing run keeps the tables valid. */
  lemma NumberedSplitsValid(t: Tables, rows: seq<UncompletedSplit>, runId: int)
    requires TablesValid(t) && runId in RunIds(t.runs)
    ensures TablesValid(t.(splits := t.splits + Numbered(rows, runId, t.nextSplitId),
                           nextSplitId := t.nextSplitId + |rows|))
  {
    var added := Numbered(rows, runId, t.nextSplitId);
    forall s | s in added ensures t.nextSplitId <= s.id < t.nextSplitId + |rows| && s.runId == runId {
      var i :| 0 <= i < |added| && added[i] == s;
    }
  }

  // ---------------------------------------------------------------- completeRun

  /** The finished run completeRun builds from the run's ordered locations. */
  function Finished(runId: int, aborted: bool, dist: Distance, ls: seq<CompletedLocation>): (c: CompletedRun)
    requires |ls| > 0
    ensures c.id == runId && c.timestamp == ls[|ls| - 1].timestamp
    ensures c.status == if aborted then Aborted else Completed
    ensures var m := CalculateRunMetrics(dist, Samples(ls));
            c.durationInSeconds == m.durationInSeconds && c.distanceInMeters == m.distanceInMeters &&
            c.avgPaceInSeconds == m.avgPaceInSeconds && c.elevationGainInMeters == m.elevationGainInMeters
  {
    var metrics := CalculateRunMetrics(dist, Samples(ls));
    CompletedRun(runId, if aborted then Aborted else Completed, metrics.durationInSeconds,
                 metrics.distanceInMeters, metrics.avgPaceInSeconds, metrics.elevationGainInMeters,
                 ls[|ls| - 1].timestamp)
  }

  /** `UPDATE run SET … WHERE id = ?`: every row with the row's id takes its values. */
  function UpdateRuns(runs: seq<UncompletedRun>, row: UncompletedRun): (r: seq<UncompletedRun>)
    ensures |r| == |runs|
    ensures forall i :: 0 <= i < |runs| ==> r[i] == if runs[i].id == row.id then row else runs[i]
  {
    seq(|runs|, i requires 0 <= i < |runs| => if runs[i].id == row.id then row else runs[i])
  }

  /** The UPDATE step of completeRun. */
  function AfterUpdate(t: Tables, c: CompletedRun): Tables {
    t.(runs := UpdateRuns(t.runs, AsUncompleted(c)))
  }

  /**
   * completeRun: a run with at most one stored location is deleted and reported false;
   * otherwise its row takes the status, end time and metrics, and its splits are inserted.
   * A failing split insertion throws, and the UPDATE stays.
   */
  function AfterComplete(t: Tables, runId: int, aborted: bool, dist: Distance, splitFn: SplitMetrics,
                         failAt: Option<nat>): (Tables, Result<bool, DbError>)
  {
    var ls := LocationsFor(t, runId);
    if |ls| <= 1 then (AfterDelete(t, runId), Success(false))
    else
      var run := Finished(runId, aborted, dist, ls);
      if !ValidCompletedRun(run) then (t, Failure(Invalid))
      else
        var (t', inserted) := AfterInsertSplits(AfterUpdate(t, run), runId, splitFn, failAt);
        (t', if inserted.Failure? then Failure(inserted.error) else Success(true))
  }

  /** A run with at most one stored location is deleted, with its locations and splits. */
  lemma CompleteRunWithoutSamples(t: Tables, runId: int, aborted: bool, dist: Distance, splitFn: SplitMetrics,
                                  failAt: Option<nat>)
    requires TablesValid(t)
    requires |LocationsFor(t, runId)| <= 1
    ensures var (t', r) := AfterComplete(t, runId, aborted, dist, splitFn, failAt);
            && r == Success(false)
            && TablesValid(t')
            && runId !in RunIds(t'.runs)
            && (forall l | l in t'.locations :: l.runId != runId)
            && (forall s | s in t'.splits :: s.runId != runId)
            && (forall r | r in t.runs && r.id != runId :: r in t'.runs)
  {
    DeleteRunCascades(t, runId);
  }

  /** A run's stored locations lead to an existing run with a positive id. */
  lemma LocationsBelongToRun(t: Tables, runId: int)
    requires TablesValid(t) && LocationsFor(t, runId) != []
    ensures runId in RunIds(t.runs) && runId >= 1
  {
    var ls := LocationsFor(t, runId);
    assert ls[0] in ls;
  }

  /** The run completeRun builds from two or more stored locations always passes CompletedRunSchema. */
  lemma FinishedRunIsValid(t: Tables, runId: int, aborted: bool, dist: Distance)
    requires TablesValid(t) && |LocationsFor(t, runId)| >= 2
    ensures ValidCompletedRun(Finished(runId, aborted, dist, LocationsFor(t, runId)))
    ensures Finished(runId, aborted, dist, LocationsFor(t, runId)).durationInSeconds >= 0.0
  {
    var ls := LocationsFor(t, runId);
    LocationsBelongToRun(t, runId);
    SamplesInTimeOrder(t, runId);
    assert ls[|ls| - 1] in ls;
  }

  /** The UPDATE of an existing run keeps the tables valid and the set of run ids. */
  lemma UpdateKeepsValid(t: Tables, c: CompletedRun)
    requires TablesValid(t)
    requires ValidCompletedRun(c) && c.status != InProgress
    ensures RunIds(AfterUpdate(t, c).runs) == RunIds(t.runs)
    ensures TablesValid(AfterUpdate(t, c))
  {
    var runs' := AfterUpdate(t, c).runs;
    forall x | x in RunIds(runs') ensures x in RunIds(t.runs) {
      var i :| 0 <= i < |runs'| && runs'[i].id == x;
      assert t.runs[i] in t.runs;
    }
    forall x | x in RunIds(t.runs) ensures x in RunIds(runs') {
      var i :| 0 <= i < |t.runs| && t.runs[i].id == x;
      assert runs'[i] in runs';
    }
    forall r | r in runs' ensures 1 <= r.id < t.nextRunId && ValidUncompletedRun(r) && Settled(r) {
      var i :| 0 <= i < |runs'| && runs'[i] == r;
      assert t.runs[i] in t.runs;
      if t.runs[i].id == c.id {
        assert r == AsUncompleted(c) && r.id == t.runs[i].id;
      } else {
        assert r == t.runs[i];
      }
    }
  }

  /**
   * The UPDATE gives every row with the run's id the finished values, keeps every other
   * row, and leaves no row of that id in progress.
   */
  lemma UpdateSetsRun(t: Tables, c: CompletedRun)
    requires c.status != InProgress
    ensures forall row | row in AfterUpdate(t, c).runs && row.id == c.id :: row == AsUncompleted(c)
    ensures forall row | row in t.runs && row.id != c.id :: row in AfterUpdate(t, c).runs
    ensures InProgressIdSet(AfterUpdate(t, c)) <= InProgressIdSet(t) - {c.id}
    ensures AfterUpdate(t, c).locations == t.locations && AfterUpdate(t, c).splits == t.splits
  {
    var runs' := AfterUpdate(t, c).runs;
    forall row | row in runs' && row.id == c.id ensures row == AsUncompleted(c) {
      var i :| 0 <= i < |runs'| && runs'[i] == row;
    }
    forall row | row in t.runs && row.id != c.id ensures row in runs' {
      var i :| 0 <= i < |t.runs| && t.runs[i] == row;
      assert runs'[i] == row;
    }
    forall id | id in InProgressIdSet(AfterUpdate(t, c)) ensures id in InProgressIdSet(t) - {c.id} {
      var r :| r in runs' && r.status == InProgress && r.id == id;
      var i :| 0 <= i < |runs'| && runs'[i] == r;
      assert t.runs[i] in t.runs;
    }
  }

  /** Inserting splits leaves the run and location tables as they were. */
  lemma InsertSplitsKeepsRuns(t: Tables, runId: int, splitFn: SplitMetrics, failAt: Option<nat>)
    ensures AfterInsertSplits(t, runId, splitFn, failAt).0.runs == t.runs
    ensures AfterInsertSplits(t, runId, splitFn, failAt).0.locations == t.locations
  {
  }

  /**
   * completeRun on a run with two or more stored locations: the parse never fails, every
   * row of the run takes the requested status, the last location's time and the metrics
   * of its time-ordered samples (so a duration that is not negative), other rows and the
   * locations stay, and the result is true exactly when every split was inserted.
   */
  lemma CompleteRunFinishes(t: Tables, runId: int, aborted: bool, dist: Distance, splitFn: SplitMetrics,
                            failAt: Option<nat>)
    requires TablesValid(t)
    requires |LocationsFor(t, runId)| >= 2
    ensures var (t', r) := AfterComplete(t, runId, aborted, dist, splitFn, failAt);
            var ls := LocationsFor(t, runId);
            var m := CalculateRunMetrics(dist, Samples(ls));
            var rows := splitFn(ls, runId);
            && TablesValid(t')
            && runId in RunIds(t'.runs)
            && (forall row | row in t'.runs && row.id == runId ::
                  && row.status == (if aborted then Aborted else Completed)
                  && row.timestamp == Some(ls[|ls| - 1].timestamp)
                  && row.durationInSeconds == Some(m.durationInSeconds) && m.durationInSeconds >= 0.0
                  && row.distanceInMeters == Some(m.distanceInMeters)
                  && row.avgPaceInSeconds == Some(m.avgPaceInSeconds)
                  && row.elevationGainInMeters == Some(m.elevationGainInMeters))
            && (forall row | row in t.runs && row.id != runId :: row in t'.runs)
            && t'.locations == t.locations
            && (r == Success(true) <==> failAt.None? || failAt.value >= |rows|)
            && (r != Success(true) ==> r == Failure(WriteFailed))
  {
    var ls := LocationsFor(t, runId);
    var run := Finished(runId, aborted, dist, ls);
    FinishedRunIsValid(t, runId, aborted, dist);
    LocationsBelongToRun(t, runId);
    var updated := AfterUpdate(t, run);
    UpdateKeepsValid(t, run);
    UpdateSetsRun(t, run);
    assert LocationsFor(updated, runId) == ls;
    InsertSplitsOutcome(updated, runId, splitFn, failAt);
    InsertSplitsKeepsRuns(updated, runId, splitFn, failAt);
  }

  /** deleteRun leaves no run of that id, and no new run, in progress. */
  lemma DeleteEndsProgress(t: Tables, runId: int)
    ensures InProgressIdSet(AfterDelete(t, runId)) <= InProgressIdSet(t) - {runId}
  {
    var t' := AfterDelete(t, runId);
    forall id | id in InProgressIdSet(t') ensures id in InProgressIdSet(t) - {runId} {
      var r :| r in t'.runs && r.status == InProgress && r.id == id;
    }
  }

  /** With two or more locations, completeRun is the UPDATE of a valid row followed by insertSplits. */
  lemma CompleteRunUpdates(t: Tables, runId: int, aborted: bool, dist: Distance, splitFn: SplitMetrics,
                           failAt: Option<nat>)
    requires TablesValid(t)
    requires |LocationsFor(t, runId)| > 1
    ensures var run := Finished(runId, aborted, dist, LocationsFor(t, runId));
            var (t', inserted) := AfterInsertSplits(AfterUpdate(t, run), runId, splitFn, failAt);
            && ValidCompletedRun(run)
            && TablesValid(AfterUpdate(t, run))
            && AfterComplete(t, runId, aborted, dist, splitFn, failAt) ==
               (t', if inserted.Failure? then Failure(inserted.error) else Success(true))
  {
    var run := Finished(runId, aborted, dist, LocationsFor(t, runId));
    FinishedRunIsValid(t, runId, aborted, dist);
    LocationsBelongToRun(t, runId);
    UpdateKeepsValid(t, run);
  }

  /** completeRun keeps the tables valid, whatever the run and whatever fails. */
  lemma CompleteKeepsValid(t: Tables, runId: int, aborted: bool, dist: Distance, splitFn: SplitMetrics,
                           failAt: Option<nat>)
    requires TablesValid(t)
    ensures TablesValid(AfterComplete(t, runId, aborted, dist, splitFn, failAt).0)
  {
    if |LocationsFor(t, runId)| <= 1 {
      DeleteRunCascades(t, runId);
    } else {
      CompleteRunFinishes(t, runId, aborted, dist, splitFn, failAt);
    }
  }

  // ---------------------------------------------------------------- completeInProgressRuns

  function IsInProgress(r: UncompletedRun): bool { r.status == InProgress }

  function InProgressIdSet(t: Tables): set<int> {
    set r | r in t.runs && r.status == InProgress :: r.id
  }

  /** `SELECT * FROM run WHERE status = 'in_progress'`: the ids, in table order. */
  function InProgressIds(t: Tables): (ids: seq<int>)
    ensures forall id :: id in ids <==> id in InProgressIdSet(t)
  {
    var rows := Filter(t.runs, IsInProgress);
    var ids := seq(|rows|, i requires 0 <= i < |rows| => rows[i].id);
    assert forall id :: id in ids ==> id in InProgressIdSet(t) by {
      forall id | id in ids ensures id in InProgressIdSet(t) {
        var i :| 0 <= i < |ids| && ids[i] == id;
        assert rows[i] in rows;
      }
    }
    assert forall id :: id in InProgressIdSet(t) ==> id in ids by {
      forall id | id in InProgressIdSet(t) ensures id in ids {
        var r :| r in t.runs && r.status == InProgress && r.id == id;
        assert r in rows;
        var i :| 0 <= i < |rows| && rows[i] == r;
        assert ids[i] == id;
      }
    }
    ids
  }

  /**
   * completeInProgressRuns: completeRun(id, aborted) for each id in turn; one that throws
   * is logged, leaves the tables as it left them, and the loop goes on. `failAt(id)` says
   * which split insertion, if any, fails for run `id`.
   */
  function AfterRecovery(t: Tables, ids: seq<int>, dist: Distance, splitFn: SplitMetrics,
                         failAt: int -> Option<nat>): Tables
    decreases |ids|
  {
    if ids == [] then t
    else AfterRecovery(AfterComplete(t, ids[0], true, dist, splitFn, failAt(ids[0])).0, ids[1..], dist, splitFn, failAt)
  }

  /** After completeRun(id), no run with that id is in progress, and no run became one. */
  lemma CompleteEndsProgress(t: Tables, runId: int, aborted: bool, dist: Distance, splitFn: SplitMetrics,
                             failAt: Option<nat>)
    requires TablesValid(t)
    ensures InProgressIdSet(AfterComplete(t, runId, aborted, dist, splitFn, failAt).0) <= InProgressIdSet(t) - {runId}
  {
    var ls := LocationsFor(t, runId);
    if |ls| <= 1 {
      DeleteEndsProgress(t, runId);
    } else {
      var run := Finished(runId, aborted, dist, ls);
      FinishedRunIsValid(t, runId, aborted, dist);
      UpdateSetsRun(t, run);
      InsertSplitsKeepsRuns(AfterUpdate(t, run), runId, splitFn, failAt);
    }
  }
  /**
   * Startup recovery over some ids takes them all out of the in-progress runs, puts no
   * other run in progress, and keeps the tables valid.
   */
  lemma {:induction false} RecoveryEndsProgress(t: Tables, ids: seq<int>, dist: Distance, splitFn: SplitMetrics,
                                                failAt: int -> Option<nat>)
    requires TablesValid(t)
    ensures TablesValid(AfterRecovery(t, ids, dist, splitFn, failAt))
    ensures InProgressIdSet(AfterRecovery(t, ids, dist, splitFn, failAt)) <= InProgressIdSet(t)
    ensures forall id | id in ids :: id !in InProgressIdSet(AfterRecovery(t, ids, dist, splitFn, failAt))
    decreases |ids|
  {
    if ids != [] {
      var next := AfterComplete(t, ids[0], true, dist, splitFn, failAt(ids[0])).0;
      assert AfterRecovery(t, ids, dist, splitFn, failAt) == AfterRecovery(next, ids[1..], dist, splitFn, failAt);
      CompleteKeepsValid(t, ids[0], true, dist, splitFn, failAt(ids[0]));
      CompleteEndsProgress(t, ids[0], true, dist, splitFn, failAt(ids[0]));
      RecoveryEndsProgress(next, ids[1..], dist, splitFn, failAt);
      forall id | id in ids ensures id !in InProgressIdSet(AfterRecovery(next, ids[1..], dist, splitFn, failAt)) {
        if id != ids[0] {
          assert id in ids[1..];
        }
      }
    }
  }

  /** completeInProgressRuns leaves no run in progress. */
  lemma RecoveryFinishesEveryRun(t: Tables, dist: Distance, splitFn: SplitMetrics, failAt: int -> Option<nat>)
    requires TablesValid(t)
    ensures var t' := AfterRecovery(t, InProgressIds(t), dist, splitFn, failAt);
            TablesValid(t') && forall r | r in t'.runs :: r.status != InProgress
  {
    var t' := AfterRecovery(t, InProgressIds(t), dist, splitFn, failAt);
    RecoveryEndsProgress(t, InProgressIds(t), dist, splitFn, failAt);
    forall r | r in t'.runs ensures r.status != InProgress {
      assert r.status == InProgress ==> r.id in InProgressIdSet(t');
    }
  }

  /**
   * What startup recovery leaves of a run whose stored locations were `ls`: with two or more,
   * the run remains, its locations are still `ls`, and every row of it is the aborted run
   * built from them; with fewer, it is gone.
   */
  predicate Recovered(t: Tables, id: int, ls: seq<CompletedLocation>, dist: Distance) {
    if |ls| >= 2 then
      && id in RunIds(t.runs)
      && LocationsFor(t, id) == ls
      && forall row | row in t.runs && row.id == id :: row == AsUncompleted(Finished(id, true, dist, ls))
    else
      id !in RunIds(t.runs)
  }

  /** deleteRun of one run leaves the rows and the locations of every other run as they were. */
  lemma DeleteLeavesOthers(t: Tables, runId: int, id: int)
    requires TablesValid(t) && runId != id
    ensures LocationsFor(AfterDelete(t, runId), id) == LocationsFor(t, id)
    ensures forall row :: row in AfterDelete(t, runId).runs && row.id == id <==> row in t.runs && row.id == id
  {
    DeleteRunCascades(t, runId);
    FilterNarrower(t.locations, NotOfRun(runId), OfRun(id));
  }

  /** The UPDATE of one run leaves the rows of every other run, and all locations, as they were. */
  lemma UpdateLeavesOthers(t: Tables, c: CompletedRun, id: int)
    requires c.status != InProgress && c.id != id
    ensures AfterUpdate(t, c).locations == t.locations
    ensures forall row :: row in AfterUpdate(t, c).runs && row.id == id <==> row in t.runs && row.id == id
  {
    var runs' := AfterUpdate(t, c).runs;
    UpdateSetsRun(t, c);
    forall row | row in runs' && row.id == id ensures row in t.runs {
      var i :| 0 <= i < |runs'| && runs'[i] == row;
      assert t.runs[i].id != c.id;
    }
  }

  /** completeRun of one run leaves the rows and the locations of every other run as they were. */
  lemma CompleteOtherRun(t: Tables, runId: int, id: int, aborted: bool, dist: Distance, splitFn: SplitMetrics,
                         failAt: Option<nat>)
    requires TablesValid(t) && runId != id
    ensures var t' := AfterComplete(t, runId, aborted, dist, splitFn, failAt).0;
            && LocationsFor(t', id) == LocationsFor(t, id)
            && (forall row :: row in t'.runs && row.id == id <==> row in t.runs && row.id == id)
  {
    var ls := LocationsFor(t, runId);
    if |ls| <= 1 {
      DeleteLeavesOthers(t, runId, id);
    } else {
      var run := Finished(runId, aborted, dist, ls);
      CompleteRunUpdates(t, runId, aborted, dist, splitFn, failAt);
      UpdateLeavesOthers(t, run, id);
      InsertSplitsKeepsRuns(AfterUpdate(t, run), runId, splitFn, failAt);
    }
  }

  /** completeRun(id, aborted = true) leaves the run recovered from the locations it had. */
  lemma CompleteOwnRun(t: Tables, id: int, dist: Distance, splitFn: SplitMetrics, failAt: Option<nat>)
    requires TablesValid(t)
    ensures Recovered(AfterComplete(t, id, true, dist, splitFn, failAt).0, id, LocationsFor(t, id), dist)
  {
    var ls := LocationsFor(t, id);
    if |ls| <= 1 {
      CompleteRunWithoutSamples(t, id, true, dist, splitFn, failAt);
    } else {
      var run := Finished(id, true, dist, ls);
      CompleteRunUpdates(t, id, true, dist, splitFn, failAt);
      CompleteRunFinishes(t, id, true, dist, splitFn, failAt);
      UpdateSetsRun(t, run);
      InsertSplitsKeepsRuns(AfterUpdate(t, run), id, splitFn, failAt);
    }
  }

  /** A recovered run stays recovered through completeRun(_, aborted = true) of any run. */
  lemma RecoveredStays(t: Tables, runId: int, id: int, ls: seq<CompletedLocation>, dist: Distance,
                       splitFn: SplitMetrics, failAt: Option<nat>)
    requires TablesValid(t) && Recovered(t, id, ls, dist)
    ensures Recovered(AfterComplete(t, runId, true, dist, splitFn, failAt).0, id, ls, dist)
  {
    var t' := AfterComplete(t, runId, true, dist, splitFn, failAt).0;
    if runId == id {
      CompleteOwnRun(t, id, dist, splitFn, failAt);
      if |ls| < 2 && LocationsFor(t, id) != [] {
        LocationsBelongToRun(t, id);
        assert false;
      }
    } else {
      CompleteOtherRun(t, runId, id, true, dist, splitFn, failAt);
      if id in RunIds(t.runs) {
        var row :| row in t.runs && row.id == id;
        assert row in t'.runs;
      }
      if id in RunIds(t'.runs) {
        var row :| row in t'.runs && row.id == id;
        assert row in t.runs;
      }
    }
  }

  /** Recovery over any ids keeps a recovered run recovered. */
  lemma {:induction false} RecoveryKeepsRecovered(t: Tables, ids: seq<int>, id: int, ls: seq<CompletedLocation>,
                                                  dist: Distance, splitFn: SplitMetrics, failAt: int -> Option<nat>)
    requires TablesValid(t) && Recovered(t, id, ls, dist)
    ensures Recovered(AfterRecovery(t, ids, dist, splitFn, failAt), id, ls, dist)
    decreases |ids|
  {
    if ids != [] {
      var next := AfterComplete(t, ids[0], true, dist, splitFn, failAt(ids[0])).0;
      RecoveredStays(t, ids[0], id, ls, dist, splitFn, failAt(ids[0]));
      CompleteKeepsValid(t, ids[0], true, dist, splitFn, failAt(ids[0]));
      RecoveryKeepsRecovered(next, ids[1..], id, ls, dist, splitFn, failAt);
    }
  }

  /** Recovery over ids that include a run leaves it recovered from the locations it had before. */
  lemma {:induction false} RecoveryRecovers(t: Tables, ids: seq<int>, id: int, dist: Distance, splitFn: SplitMetrics,
                                            failAt: int -> Option<nat>)
    requires TablesValid(t) && id in ids
    ensures Recovered(AfterRecovery(t, ids, dist, splitFn, failAt), id, LocationsFor(t, id), dist)
    decreases |ids|
  {
    var next := AfterComplete(t, ids[0], true, dist, splitFn, failAt(ids[0])).0;
    CompleteKeepsValid(t, ids[0], true, dist, splitFn, failAt(ids[0]));
    if ids[0] == id {
      CompleteOwnRun(t, id, dist, splitFn, failAt(id));
      RecoveryKeepsRecovered(next, ids[1..], id, LocationsFor(t, id), dist, splitFn, failAt);
    } else {
      CompleteOtherRun(t, ids[0], id, true, dist, splitFn, failAt(ids[0]));
      assert id in ids[1..];
      RecoveryRecovers(next, ids[1..], id, dist, splitFn, failAt);
    }
  }

  /** Recovery over ids that leave a run out keeps that run's rows and locations as they were. */
  lemma {:induction false} RecoveryLeavesOthers(t: Tables, ids: seq<int>, id: int, dist: Distance,
                                                splitFn: SplitMetrics, failAt: int -> Option<nat>)
    requires TablesValid(t) && id !in ids
    ensures var t' := AfterRecovery(t, ids, dist, splitFn, failAt);
            && LocationsFor(t', id) == LocationsFor(t, id)
            && (forall row :: row in t'.runs && row.id == id <==> row in t.runs && row.id == id)
    decreases |ids|
  {
    if ids != [] {
      var next := AfterComplete(t, ids[0], true, dist, splitFn, failAt(ids[0])).0;
      CompleteKeepsValid(t, ids[0], true, dist, splitFn, failAt(ids[0]));
      CompleteOtherRun(t, ids[0], id, true, dist, splitFn, failAt(ids[0]));
      assert id !in ids[1..];
      RecoveryLeavesOthers(next, ids[1..], id, dist, splitFn, failAt);
    }
  }

  /**
   * completeInProgressRuns aborts each in-progress run that has two or more stored locations
   * (every row of it becomes the aborted run built from those locations, which stay), deletes
   * each one with fewer, and keeps every finished run and its locations.
   */
  lemma RecoveryAbortsOrDeletes(t: Tables, dist: Distance, splitFn: SplitMetrics, failAt: int -> Option<nat>)
    requires TablesValid(t)
    ensures var t' := AfterRecovery(t, InProgressIds(t), dist, splitFn, failAt);
            && (forall id | id in InProgressIdSet(t) ::
                  var ls := LocationsFor(t, id);
                  if |ls| >= 2 then
                    && id in RunIds(t'.runs)
                    && LocationsFor(t', id) == ls
                    && forall row | row in t'.runs && row.id == id ::
                         row == AsUncompleted(Finished(id, true, dist, ls)) && row.status == Aborted
                  else
                    id !in RunIds(t'.runs))
            && (forall row | row in t.runs && row.status != InProgress ::
                  row in t'.runs && LocationsFor(t', row.id) == LocationsFor(t, row.id))
  {
    var ids := InProgressIds(t);
    var t' := AfterRecovery(t, ids, dist, splitFn, failAt);
    forall id | id in InProgressIdSet(t) ensures Recovered(t', id, LocationsFor(t, id), dist) {
      RecoveryRecovers(t, ids, id, dist, splitFn, failAt);
    }
    forall row | row in t.runs && row.status != InProgress
      ensures row in t'.runs && LocationsFor(t', row.id) == LocationsFor(t, row.id)
    {
      assert row.id !in InProgressIdSet(t);
      RecoveryLeavesOthers(t, ids, row.id, dist, splitFn, failAt);
    }
  }

  // ---------------------------------------------------------------- getRuns

  /** The page size of the run list. */
  const Limit := 10

  /**
   * `ORDER BY timestamp DESC`: the later run first; SQLite sorts NULL below every number,
   * so in-progress runs, which have no timestamp, come last. Stored timestamps are not
   * negative, so their negation never reaches 1.
   */
  function Recency(r: UncompletedRun): int {
    if r.timestamp.None? then 1 else -r.timestamp.value
  }

  /** The columns `getRuns` selects, under the names it gives them. */
  function ToActivity(r: UncompletedRun): ActivityRun {
    ActivityRun(r.id, r.status, r.durationInSeconds, r.distanceInMeters, r.avgPaceInSeconds, r.timestamp)
  }

  /** Every run, newest first, as the run list shows it. */
  function Listing(t: Tables): (l: seq<ActivityRun>)
    ensures |l| == |t.runs|
  {
    MapRows(SortBy(t.runs, Recency), ToActivity)
  }

  /** The listing holds every run, and lists runs with a later end first and unfinished runs last. */
  lemma ListingNewestFirst(t: Tables)
    requires TablesValid(t)
    ensures var l := Listing(t);
            && multiset(l) == multiset(MapRows(t.runs, ToActivity))
            && (forall r | r in t.runs :: ToActivity(r) in l)
            && (forall i, j | 0 <= i < j < |l| ::
                  l[j].date.None? || (l[i].date.Some? && l[i].date.value >= l[j].date.value))
  {
    var sorted := SortBy(t.runs, Recency);
    var l := Listing(t);
    MapPermutation(sorted, t.runs, ToActivity);
    assert forall r :: r in sorted <==> r in t.runs by {
      assert forall r :: r in sorted <==> r in multiset(sorted);
    }
    forall r | r in t.runs ensures ToActivity(r) in l {
      var i :| 0 <= i < |sorted| && sorted[i] == r;
      assert l[i] == ToActivity(r);
    }
    forall i, j | 0 <= i < j < |l| ensures l[j].date.None? || (l[i].date.Some? && l[i].date.value >= l[j].date.value) {
      assert Recency(sorted[i]) <= Recency(sorted[j]);
      assert sorted[i] in t.runs && sorted[j] in t.runs;
    }
  }

  /** One page of the run list and the cursor of the next, if any. */
  datatype RunPage = RunPage(runs: seq<ActivityRun>, cursor: Option<int>)

  function Min(a: int, b: int): int { if a < b then a else b }

  /**
   * `LIMIT 11 OFFSET cursor`, then the eleventh row, if it came, dropped and the cursor
   * moved on by a page: at most ten runs from the offset, and a next cursor exactly when
   * more runs follow.
   */
  function PageOf(listing: seq<ActivityRun>, cursor: nat): (p: RunPage)
    ensures |p.runs| <= Limit
    ensures p.runs == listing[Min(cursor, |listing|)..Min(cursor + Limit, |listing|)]
    ensures p.cursor.Some? <==> |listing| > cursor + Limit
    ensures p.cursor.Some? ==> p.cursor.value == cursor + Limit
  {
    var fetched := listing[Min(cursor, |listing|)..Min(cursor + Limit + 1, |listing|)];
    if |fetched| > Limit then RunPage(fetched[..|fetched| - 1], Some(cursor + Limit))
    else RunPage(fetched, None)
  }

  /** What the run list shows after following the cursors from `cursor` to the end. */
  function Scroll(listing: seq<ActivityRun>, cursor: nat): seq<ActivityRun>
    decreases |listing| - cursor
  {
    var p := PageOf(listing, cursor);
    if p.cursor.None? then p.runs else p.runs + Scroll(listing, p.cursor.value)
  }

  /** Following the cursors shows every run from the offset on, once each and in order. */
  lemma {:induction false} ScrollShowsAll(listing: seq<ActivityRun>, cursor: nat)
    requires cursor <= |listing|
    ensures Scroll(listing, cursor) == listing[cursor..]
    decreases |listing| - cursor
  {
    var p := PageOf(listing, cursor);
    if p.cursor.Some? {
      ScrollShowsAll(listing, cursor + Limit);
      assert listing[cursor..] == listing[cursor..cursor + Limit] + listing[cursor + Limit..];
    }
  }

  /** Twenty-five runs come as pages of 10, 10 and 5, with cursors 10, 20 and none. */
  lemma TwentyFiveRuns(listing: seq<ActivityRun>)
    requires |listing| == 25
    ensures |PageOf(listing, 0).runs| == 10 && PageOf(listing, 0).cursor == Some(10)
    ensures |PageOf(listing, 10).runs| == 10 && PageOf(listing, 10).cursor == Some(20)
    ensures |PageOf(listing, 20).runs| == 5 && PageOf(listing, 20).cursor == None
  {
  }

  // ---------------------------------------------------------------- getOverview

  /**
   * The present as SQLite's `strftime('%s', 'now', modifier)` sees it, in seconds: now, and
   * the calendar shifts '-1 month' and '-1 year' (SQLite's date arithmetic is not part of
   * this model).
   */
  datatype Clock = Clock(nowSeconds: int, monthAgoSeconds: int, yearAgoSeconds: int)

  /** The lower bound on a counted run's timestamp, in milliseconds; none for `all`. */
  function WindowStart(interval: Interval, clock: Clock): Option<int> {
    match interval
    case Week => Some((clock.nowSeconds - 7 * 24 * 60 * 60) * 1000)
    case Month => Some(clock.monthAgoSeconds * 1000)
    case Year => Some(clock.yearAgoSeconds * 1000)
    case All => None
  }

  /**
   * `WHERE status != 'in_progress' AND timestamp >= since`: a NULL timestamp makes the
   * comparison NULL, so such a row is not counted.
   */
  function CountedIn(since: Option<int>): UncompletedRun -> bool {
    (r: UncompletedRun) => r.status != InProgress && (since.None? || (r.timestamp.Some? && r.timestamp.value >= since.value))
  }

  /**
   * SQL `SUM` under the column's addition (INTEGER or REAL): NULLs are skipped, and with
   * no value left the sum is NULL.
   */
  function Sum<T>(xs: seq<Option<T>>, plus: (T, T) -> T): (s: Option<T>)
    ensures s.None? <==> forall i :: 0 <= i < |xs| ==> xs[i].None?
  {
    if xs == [] then None
    else
      var rest := Sum(xs[1..], plus);
      assert forall i :: 1 <= i < |xs| ==> xs[i] == xs[1..][i - 1];
      if xs[0].None? then rest
      else if rest.None? then xs[0]
      else Some(plus(xs[0].value, rest.value))
  }

  function AddInt(a: int, b: int): int { a + b }

  function AddReal(a: real, b: real): real { a + b }

  /** How many of the values are not NULL. */
  function CountValues(xs: seq<Option<int>>): nat {
    if xs == [] then 0 else (if xs[0].Some? then 1 else 0) + CountValues(xs[1..])
  }

  lemma {:induction false} CountValuesZero(xs: seq<Option<int>>)
    ensures CountValues(xs) == 0 <==> Sum(xs, AddInt).None?
  {
    if xs != [] {
      CountValuesZero(xs[1..]);
    }
  }

  /** SQL `AVG`: the sum of the values that are not NULL over their number; NULL without any. */
  function Avg(xs: seq<Option<int>>): (a: Option<real>)
    ensures a.None? <==> Sum(xs, AddInt).None?
  {
    CountValuesZero(xs);
    var n := CountValues(xs);
    if n == 0 then None else Some(Sum(xs, AddInt).value as real / n as real)
  }

  /** The row the overview query returns: the count and three nullable aggregates. */
  datatype OverviewRow = OverviewRow(
    totalRuns: int, totalDistance: Option<int>, avgPace: Option<real>, totalDuration: Option<real>)

  function Distances(rows: seq<UncompletedRun>): (xs: seq<Option<int>>)
    ensures |xs| == |rows| && forall i :: 0 <= i < |rows| ==> xs[i] == rows[i].distanceInMeters
  {
    seq(|rows|, i requires 0 <= i < |rows| => rows[i].distanceInMeters)
  }

  function Paces(rows: seq<UncompletedRun>): (xs: seq<Option<int>>)
    ensures |xs| == |rows| && forall i :: 0 <= i < |rows| ==> xs[i] == rows[i].avgPaceInSeconds
  {
    seq(|rows|, i requires 0 <= i < |rows| => rows[i].avgPaceInSeconds)
  }

  function Durations(rows: seq<UncompletedRun>): (xs: seq<Option<real>>)
    ensures |xs| == |rows| && forall i :: 0 <= i < |rows| ==> xs[i] == rows[i].durationInSeconds
  {
    seq(|rows|, i requires 0 <= i < |rows| => rows[i].durationInSeconds)
  }

  /** The aggregate query of getOverview over the runs it counts. */
  function OverviewQuery(t: Tables, interval: Interval, clock: Clock): OverviewRow {
    var rows := Filter(t.runs, CountedIn(WindowStart(interval, clock)));
    OverviewRow(|rows|, Sum(Distances(rows), AddInt), Avg(Paces(rows)), Sum(Durations(rows), AddReal))
  }

  /**
   * OverviewSchema (not part of this model): it turns each aggregate into its display
   * form, and a display form can come out null.
   */
  datatype OverviewFormat = OverviewFormat(
    totalRuns: int -> Option<string>,
    totalDistance: int -> Option<DistanceText>,
    avgPace: real -> Option<string>,
    totalDuration: real -> Option<DurationText>)

  /** A NULL aggregate stays null; any other goes through its formatter. */
  function Formatted<A, B>(x: Option<A>, f: A -> Option<B>): Option<B> {
    if x.None? then None else f(x.value)
  }

  /** getOverview: the formatted aggregates, each null one replaced by its placeholder. */
  function OverviewOf(t: Tables, interval: Interval, clock: Clock, fmt: OverviewFormat): Overview {
    var row := OverviewQuery(t, interval, clock);
    Overview(
      fmt.totalRuns(row.totalRuns).GetOr("0"),
      Formatted(row.totalDistance, fmt.totalDistance).GetOr(DistanceText("0", "Meters")),
      Formatted(row.avgPace, fmt.avgPace).GetOr("00:00"),
      Formatted(row.totalDuration, fmt.totalDuration).GetOr(DurationText("00:00", "Minutes")))
  }

  /** With no run to count, the overview shows the placeholders. */
  lemma OverviewOfNoRuns(t: Tables, interval: Interval, clock: Clock, fmt: OverviewFormat)
    requires forall r | r in t.runs :: !CountedIn(WindowStart(interval, clock))(r)
    ensures OverviewOf(t, interval, clock, fmt) ==
            Overview(fmt.totalRuns(0).GetOr("0"), DistanceText("0", "Meters"), "00:00", DurationText("00:00", "Minutes"))
  {
  }

  /** The overview of an empty run table, for every interval. */
  lemma OverviewOfEmptyTable(t: Tables, interval: Interval, clock: Clock, fmt: OverviewFormat)
    requires t.runs == []
    ensures OverviewOf(t, interval, clock, fmt) ==
            Overview(fmt.totalRuns(0).GetOr("0"), DistanceText("0", "Meters"), "00:00", DurationText("00:00", "Minutes"))
  {
    OverviewOfNoRuns(t, interval, clock, fmt);
  }

  /** Runs still in progress never enter the overview. */
  lemma OverviewIgnoresInProgress(t: Tables, interval: Interval, clock: Clock)
    ensures OverviewQuery(t, interval, clock) ==
            OverviewQuery(t.(runs := Filter(t.runs, (r: UncompletedRun) => r.status != InProgress)), interval, clock)
  {
    FilterNarrower(t.runs, (r: UncompletedRun) => r.status != InProgress, CountedIn(WindowStart(interval, clock)));
  }

  /**
   * Over valid tables every counted run is finished and carries its metrics, so an
   * aggregate is NULL exactly when no run is counted.
   */
  lemma OverviewNullExactlyWhenEmpty(t: Tables, interval: Interval, clock: Clock)
    requires TablesValid(t)
    ensures var row := OverviewQuery(t, interval, clock);
            && (row.totalDistance.None? <==> row.totalRuns == 0)
            && (row.avgPace.None? <==> row.totalRuns == 0)
            && (row.totalDuration.None? <==> row.totalRuns == 0)
  {
    var rows := Filter(t.runs, CountedIn(WindowStart(interval, clock)));
    if rows != [] {
      assert rows[0] in rows;
      assert Distances(rows)[0].Some? && Paces(rows)[0].Some? && Durations(rows)[0].Some?;
    }
  }

  /** A later window start never counts more runs. */
  lemma LaterWindowCountsFewer(t: Tables, later: int, earlier: int)
    requires earlier <= later
    ensures |Filter(t.runs, CountedIn(Some(later)))| <= |Filter(t.runs, CountedIn(Some(earlier)))|
  {
    var wide, narrow := CountedIn(Some(earlier)), CountedIn(Some(later));
    assert forall r :: narrow(r) ==> wide(r);
    FilterCountMonotone(t.runs, wide, narrow);
  }

  /** `all` counts at least as many runs as any window. */
  lemma AllCountsMost(t: Tables, interval: Interval, clock: Clock)
    ensures OverviewQuery(t, interval, clock).totalRuns <= OverviewQuery(t, All, clock).totalRuns
  {
    var wide, narrow := CountedIn(None), CountedIn(WindowStart(interval, clock));
    assert forall r :: narrow(r) ==> wide(r);
    FilterCountMonotone(t.runs, wide, narrow);
    assert OverviewQuery(t, interval, clock).totalRuns == |Filter(t.runs, narrow)|;
    assert OverviewQuery(t, All, clock).totalRuns == |Filter(t.runs, wide)|;
  }

  // ---------------------------------------------------------------- the store

  /** The SQLite database of lib/db.ts, opened by `initDatabase`: the three tables. */
  class RunDb {
    var runs: seq<UncompletedRun>
    var locations: seq<CompletedLocation>
    var splits: seq<CompletedSplit>
    var nextRunId: int
    var nextLocationId: int
    var nextSplitId: int

    function State(): Tables
      reads this
    {
      Tables(runs, locations, splits, nextRunId, nextLocationId, nextSplitId)
    }

    predicate Valid()
      reads this
    {
      TablesValid(State())
    }

    /** initDatabase on a fresh install: the three tables, empty. */
    constructor ()
      ensures State() == EmptyTables && Valid()
    {
      runs, locations, splits := [], [], [];
      nextRunId, nextLocationId, nextSplitId := 1, 1, 1;
      EmptyTablesValid();
    }

    /** createRun: `INSERT INTO run DEFAULT VALUES`, returning the new row's id. */
    method CreateRun() returns (id: int)
      requires Valid()
      modifies this
      ensures Valid()
      ensures (State(), id) == AfterCreate(old(State()))
    {
      CreateRunFresh(State());
      id := nextRunId;
      runs := runs + [NewRun(id)];
      nextRunId := nextRunId + 1;
    }

    /** getLocationsForRun: the run's locations, oldest first. */
    method GetLocationsForRun(runId: int) returns (ls: seq<CompletedLocation>)
      ensures ls == LocationsFor(State(), runId)
    {
      ls := SortBy(Filter(locations, OfRun(runId)), Timestamp);
    }

    /** deleteRun: `DELETE FROM run WHERE id = ?`, with the cascade to locations and splits. */
    method DeleteRun(runId: int)
      requires Valid()
      modifies this
      ensures Valid()
      ensures State() == AfterDelete(old(State()), runId)
    {
      DeleteRunCascades(State(), runId);
      runs := Filter(runs, NotRun(runId));
      locations := Filter(locations, NotOfRun(runId));
      splits := Filter(splits, SplitNotOfRun(runId));
    }

    /** insertLocation: the converted sample under the run, once both schemas and the foreign key accept it. */
    method InsertLocation(runId: int, locationObject: LocationObject) returns (r: Result<int, DbError>)
      requires Valid()
      modifies this
      ensures Valid()
      ensures (State(), r) == AfterInsertLocation(old(State()), runId, locationObject)
    {
      InsertLocationOutcome(State(), runId, locationObject);
      var location := Utils.ConvertLocationObjectToLocation(locationObject);
      var parsedRun := ParseRunId(runId);
      if parsedRun.Failure? {
        return Failure(Invalid);
      }
      if !ValidUncompletedLocation(location) {
        return Failure(Invalid);
      }
      if parsedRun.value !in RunIds(runs) {
        return Failure(ForeignKeyViolation);
      }
      r := Success(nextLocationId);
      locations := locations + [LocationRow(nextLocationId, parsedRun.value, location)];
      nextLocationId := nextLocationId + 1;
    }

    /** insertSplits: one INSERT per computed split, stopping at the first that fails. */
    method InsertSplits(runId: int, splitFn: SplitMetrics, failAt: Option<nat>) returns (r: Result<(), DbError>)
      requires Valid()
      modifies this
      ensures Valid()
      ensures (State(), r) == AfterInsertSplits(old(State()), runId, splitFn, failAt)
    {
      ghost var t0 := State();
      var ls := GetLocationsForRun(runId);
      var rows := splitFn(ls, runId);
      if rows == [] {
        return Success(());
      }
      r := WriteSplits(runId, rows, failAt);
      if runId in RunIds(runs) {
        InsertSplitsExit(t0, runId, splitFn, failAt, Inserted(|rows|, failAt));
      } else {
        assert State() == t0;
      }
    }

    /**
     * The INSERT loop of insertSplits: every row is checked against the run table before
     * it is written, and the loop stops at the first write that fails.
     */
    method WriteSplits(runId: int, rows: seq<UncompletedSplit>, failAt: Option<nat>) returns (r: Result<(), DbError>)
      requires rows != []
      modifies this
      ensures runs == old(runs) && locations == old(locations)
      ensures nextRunId == old(nextRunId) && nextLocationId == old(nextLocationId)
      ensures runId !in RunIds(runs) ==>
                splits == old(splits) && nextSplitId == old(nextSplitId) && r == Failure(ForeignKeyViolation)
      ensures runId in RunIds(runs) ==>
                var n := Inserted(|rows|, failAt);
                && splits == old(splits) + Numbered(rows[..n], runId, old(nextSplitId))
                && nextSplitId == old(nextSplitId) + n
                && r == if n < |rows| then Failure(WriteFailed) else Success(())
    {
      var k := 0;
      while k < |rows|
        invariant 0 <= k <= |rows|
        invariant failAt.Some? ==> k <= failAt.value
        invariant k > 0 ==> runId in RunIds(runs)
        invariant runs == old(runs) && locations == old(locations)
        invariant nextRunId == old(nextRunId) && nextLocationId == old(nextLocationId)
        invariant splits == old(splits) + Numbered(rows[..k], runId, old(nextSplitId))
        invariant nextSplitId == old(nextSplitId) + k
      {
        if runId !in RunIds(runs) {
          assert rows[..k] == [];
          return Failure(ForeignKeyViolation);
        }
        if failAt == Some(k) {
          return Failure(WriteFailed);
        }
        NumberedAppend(rows, k, runId, old(nextSplitId));
        splits := splits + [CompletedSplit(nextSplitId, runId, rows[k].km, rows[k].avgPaceInSeconds,
                                           rows[k].elevationGainInMeters)];
        nextSplitId := nextSplitId + 1;
        k := k + 1;
      }
      return Success(());
    }

    /**
     * completeRun: delete a run with at most one location; otherwise write its status,
     * end time and metrics, then insert its splits.
     */
    method CompleteRun(runId: int, aborted: bool, dist: Distance, splitFn: SplitMetrics, failAt: Option<nat>)
      returns (r: Result<bool, DbError>)
      requires Valid()
      modifies this
      ensures Valid()
      ensures (State(), r) == AfterComplete(old(State()), runId, aborted, dist, splitFn, failAt)
    {
      ghost var t0 := State();
      var ls := GetLocationsForRun(runId);
      if |ls| <= 1 {
        DeleteRun(runId);
        return Success(false);
      }
      var completedRun := Finished(runId, aborted, dist, ls);
      if !ValidCompletedRun(completedRun) {
        return Failure(Invalid);
      }
      CompleteRunUpdates(t0, runId, aborted, dist, splitFn, failAt);
      UpdateRun(completedRun);
      var inserted := InsertSplits(runId, splitFn, failAt);
      if inserted.Failure? {
        return Failure(inserted.error);
      }
      return Success(true);
    }

    /** The UPDATE of completeRun: the run's row takes the completed values. */
    method UpdateRun(completedRun: CompletedRun)
      requires Valid() && ValidCompletedRun(completedRun) && completedRun.status != InProgress
      modifies this
      ensures Valid()
      ensures State() == AfterUpdate(old(State()), completedRun)
    {
      UpdateKeepsValid(State(), completedRun);
      runs := UpdateRuns(runs, AsUncompleted(completedRun));
    }

    /**
     * completeInProgressRuns: every run found in progress is completed as aborted; a run
     * whose completion throws is skipped.
     */
    method CompleteInProgressRuns(dist: Distance, splitFn: SplitMetrics, failAt: int -> Option<nat>)
      requires Valid()
      modifies this
      ensures Valid()
      ensures State() == AfterRecovery(old(State()), InProgressIds(old(State())), dist, splitFn, failAt)
      ensures forall r | r in runs :: r.status != InProgress
    {
      RecoveryFinishesEveryRun(State(), dist, splitFn, failAt);
      var ids := InProgressIds(State());
      if |ids| == 0 {
        return;
      }
      for i := 0 to |ids|
        invariant Valid()
        invariant AfterRecovery(State(), ids[i..], dist, splitFn, failAt) ==
                  AfterRecovery(old(State()), ids, dist, splitFn, failAt)
      {
        var completed := CompleteRun(ids[i], true, dist, splitFn, failAt(ids[i]));
        assert ids[i..][1..] == ids[i + 1..];
      }
    }

    /** getRuns: one page of the run list from the offset `rawCursor`. */
    method GetRuns(rawCursor: int) returns (r: Result<RunPage, DbError>)
      ensures rawCursor < 0 ==> r == Failure(Invalid)
      ensures rawCursor >= 0 ==> r == Success(PageOf(Listing(State()), rawCursor))
    {
      if rawCursor < 0 {
        return Failure(Invalid);
      }
      var cursor := rawCursor;
      var listing := Listing(State());
      var parsed := listing[Min(cursor, |listing|)..Min(cursor + Limit + 1, |listing|)];
      if |parsed| > Limit {
        parsed := parsed[..|parsed| - 1];
        return Success(RunPage(parsed, Some(cursor + Limit)));
      }
      return Success(RunPage(parsed, None));
    }

    /** getOverview: the aggregates over the interval, formatted, with placeholders for nulls. */
    method GetOverview(interval: Interval, clock: Clock, fmt: OverviewFormat) returns (o: Overview)
      ensures o == OverviewOf(State(), interval, clock, fmt)
    {
      var parsed := OverviewQuery(State(), interval, clock);
      o := Overview(
        fmt.totalRuns(parsed.totalRuns).GetOr("0"),
        Formatted(parsed.totalDistance, fmt.totalDistance).GetOr(DistanceText("0", "Meters")),
        Formatted(parsed.avgPace, fmt.avgPace).GetOr("00:00"),
        Formatted(parsed.totalDuration, fmt.totalDuration).GetOr(DurationText("00:00", "Minutes")));
    }
  }
}
