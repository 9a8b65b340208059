/**
 * The client-side state of lib/store.ts: the run list with its pagination cursor, and
 * the overview card's interval and values. Each store is an object whose setters replace
 * fields in place.
 */
module Store {
  import opened Wrappers
  import opened Model
  import opened Rows

  /** The cursor moved by `delta`: a null cursor (no more pages) stays null. */
  function Shift(cursor: Option<int>, delta: int): Option<int> {
    if cursor.None? then None else Some(cursor.value + delta)
  }

  /** Shifting back undoes a shift, null or not. */
  lemma ShiftBack(cursor: Option<int>, delta: int)
    ensures Shift(Shift(cursor, delta), -delta) == cursor
    ensures Shift(cursor, delta).None? <==> cursor.None?
  {
  }

  function HasOtherId(id: int): ActivityRun -> bool {
    (r: ActivityRun) => r.id != id
  }

  function Ids(runs: seq<ActivityRun>): set<int> {
    set r | r in runs :: r.id
  }

  /** `runs.filter((run) => run.id !== id)`: the runs without that id, in their order. */
  function WithoutId(runs: seq<ActivityRun>, id: int): (r: seq<ActivityRun>)
    ensures |r| <= |runs|
    ensures forall x :: x in r <==> x in runs && x.id != id
    ensures id !in Ids(r)
  {
    Filter(runs, HasOtherId(id))
  }

  /** Removing from a concatenation removes from each part and keeps the parts in order. */
  lemma WithoutIdAppend(a: seq<ActivityRun>, b: seq<ActivityRun>, id: int)
    ensures WithoutId(a + b, id) == WithoutId(a, id) + WithoutId(b, id)
  {
    FilterAppend(a, b, HasOtherId(id));
  }

  /** Removing an id no run has changes nothing. */
  lemma WithoutAbsentId(runs: seq<ActivityRun>, id: int)
    requires id !in Ids(runs)
    ensures WithoutId(runs, id) == runs
  {
    forall x | x in runs ensures HasOtherId(id)(x) {
      assert x.id in Ids(runs);
    }
    FilterAll(runs, HasOtherId(id));
  }

  /** Removing the same id twice is removing it once. */
  lemma WithoutIdIdempotent(runs: seq<ActivityRun>, id: int)
    ensures WithoutId(WithoutId(runs, id), id) == WithoutId(runs, id)
  {
    WithoutAbsentId(WithoutId(runs, id), id);
  }

  /** A removal drops exactly the runs with that id: every other run of the list is still there. */
  lemma WithoutIdDropsOnlyThatId(run: ActivityRun, runs: seq<ActivityRun>, id: int)
    ensures WithoutId([run] + runs, id) == (if run.id == id then [] else [run]) + WithoutId(runs, id)
  {
    WithoutIdAppend([run], runs, id);
    assert [run][1..] == [];
    assert WithoutId([run], id) == if run.id == id then [] else [run];
  }

  /**
   * For a run whose id is not yet listed, addNewestRun followed by removeRun of that id
   * gives back the original list and cursor.
   */
  lemma AddThenRemoveRestores(runs: seq<ActivityRun>, cursor: Option<int>, run: ActivityRun)
    requires run.id !in Ids(runs)
    ensures WithoutId([run] + runs, run.id) == runs
    ensures Shift(Shift(cursor, 1), -1) == cursor
  {
    WithoutIdDropsOnlyThatId(run, runs, run.id);
    WithoutAbsentId(runs, run.id);
    ShiftBack(cursor, 1);
  }

  /** useRunStore. */
  class RunStore {
    var isRunning: bool
    var cursor: Option<int>
    var runs: seq<ActivityRun>

    constructor ()
      ensures !isRunning && cursor == Some(0) && runs == []
    {
      isRunning, cursor, runs := false, Some(0), [];
    }

    method SetIsRunning(running: bool)
      modifies this
      ensures isRunning == running
      ensures cursor == old(cursor) && runs == old(runs)
    {
      isRunning := running;
    }

    method SetCursor(c: Option<int>)
      modifies this
      ensures cursor == c
      ensures isRunning == old(isRunning) && runs == old(runs)
    {
      cursor := c;
    }

    /** addRuns: a fetched page goes after the runs already listed. */
    method AddRuns(page: seq<ActivityRun>)
      modifies this
      ensures runs == old(runs) + page
      ensures runs[..|old(runs)|] == old(runs) && runs[|old(runs)|..] == page
      ensures isRunning == old(isRunning) && cursor == old(cursor)
    {
      runs := runs + page;
    }

    /** addNewestRun: a finished run goes first, and the offset of the next page moves up by one. */
    method AddNewestRun(run: ActivityRun)
      modifies this
      ensures runs == [run] + old(runs)
      ensures cursor == Shift(old(cursor), 1)
      ensures isRunning == old(isRunning)
    {
      runs := [run] + runs;
      cursor := Shift(cursor, 1);
    }

    /** removeRun: the runs with that id go, and the offset moves down by one, even if none had it. */
    method RemoveRun(id: int)
      modifies this
      ensures runs == WithoutId(old(runs), id)
      ensures cursor == Shift(old(cursor), -1)
      ensures isRunning == old(isRunning)
    {
      runs := WithoutId(runs, id);
      cursor := Shift(cursor, -1);
    }
  }

  /** useOverviewStore. */
  class OverviewStore {
    var interval: Interval
    var overview: Option<Overview>

    constructor ()
      ensures interval == Week && overview == None
    {
      interval, overview := Week, None;
    }

    method SetInterval(i: Interval)
      modifies this
      ensures interval == i && overview == old(overview)
    {
      interval := i;
    }

    method SetOverview(o: Option<Overview>)
      modifies this
      ensures overview == o && interval == old(interval)
    {
      overview := o;
    }
  }
}
