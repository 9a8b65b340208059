/**
 * The tracking session behind components/running-screen.tsx: the handlers that create the
 * run, subscribe to position updates, pause, resume and stop, the one-second timer and the
 * unmount cleanup. The location permission prompt, the position watcher and the timer
 * are outside the model: their outcomes arrive as parameters and as calls of `OnLocation`
 * and `Tick`.
 */
module RunningScreen {
  import opened Wrappers
  import opened Model
  import opened Metrics
  import opened Query

  /**
   * A store call the screen issues without awaiting it. The calls take effect on the store
   * in the order issued, each as `Perform` applies it.
   */
  datatype StoreCall =
    | InsertLocationCall(runId: int, location: LocationObject)
    | CompleteRunCall(runId: int)

  /** The tables after one issued call; a completion from this screen is never an abort. */
  function AfterCall(t: Tables, call: StoreCall, dist: Distance, splitFn: SplitMetrics, failAt: Option<nat>): Tables
  {
    match call
    case InsertLocationCall(runId, location) => AfterInsertLocation(t, runId, location).0
    case CompleteRunCall(runId) => AfterComplete(t, runId, false, dist, splitFn, failAt).0
  }

  /** Apply one issued call to the store. */
  method Perform(db: RunDb, call: StoreCall, dist: Distance, splitFn: SplitMetrics, failAt: Option<nat>)
    requires db.Valid()
    modifies db
    ensures db.Valid()
    ensures db.State() == AfterCall(old(db.State()), call, dist, splitFn, failAt)
  {
    match call
    case InsertLocationCall(runId, location) =>
      var inserted := db.InsertLocation(runId, location);
    case CompleteRunCall(runId) =>
      var completed := db.CompleteRun(runId, false, dist, splitFn, failAt);
  }

  class TrackingSession {
    /** The parent's isRunning flag, which the screen clears through its setIsRunning prop. */
    var running: bool
    /** The samples shown on screen since the last stop. */
    var locations: seq<LocationObject>
    var runId: Option<int>
    /** Elapsed milliseconds. */
    var timer: int
    var isPaused: bool
    /**
     * subscriptionRef: the live position subscription, recorded by the run id its callback
     * was created with; None once removed.
     */
    var subscription: Option<int>
    /** The store calls issued so far, oldest first. */
    var calls: seq<StoreCall>

    /**
     * A paused session has no subscription, a subscription feeds samples to the session's
     * own run, every issued call is about that run, and the timer counts whole seconds.
     */
    predicate Valid()
      reads this
    {
      && (isPaused ==> subscription.None? && runId.Some?)
      && (subscription.Some? ==> subscription == runId)
      && (runId.None? ==> calls == [])
      && (forall call | call in calls :: runId == Some(call.runId))
      && timer >= 0 && timer % 1000 == 0
    }

    /** The screen as first rendered: no run yet, nothing recorded. */
    constructor ()
      ensures Valid() && running
      ensures locations == [] && runId == None && timer == 0 && !isPaused && subscription == None
      ensures calls == []
    {
      running := true;
      locations, runId, timer, isPaused, subscription, calls := [], None, 0, false, None, [];
    }

    /** The mount effect: create the run (awaited), remember its id and start tracking it. */
    method Mount(db: RunDb, granted: bool) returns (id: int)
      requires Valid() && runId.None? && db.Valid()
      modifies this, db
      ensures Valid() && db.Valid()
      ensures (db.State(), id) == AfterCreate(old(db.State()))
      ensures runId == Some(id)
      ensures subscription == if granted then Some(id) else None
      ensures running == (old(running) && granted)
      ensures locations == old(locations) && timer == old(timer) && isPaused == old(isPaused)
      ensures calls == old(calls) == []
    {
      id := db.CreateRun();
      runId := Some(id);
      StartTracking(id, granted);
    }

    /**
     * startTracking: without the permission the parent's flag is cleared and nothing is
     * subscribed; with it, position updates for `id` start.
     */
    method StartTracking(id: int, granted: bool)
      modifies this
      ensures !granted ==> !running && subscription == old(subscription)
      ensures granted ==> running == old(running) && subscription == Some(id)
      ensures locations == old(locations) && runId == old(runId)
      ensures timer == old(timer) && isPaused == old(isPaused) && calls == old(calls)
    {
      if !granted {
        running := false;
        return;
      }
      subscription := Some(id);
    }

    /**
     * The watcher's callback: while subscribed, the sample joins the on-screen list and an
     * insert under the run the subscription was made for is issued.
     */
    method OnLocation(sample: LocationObject)
      requires Valid()
      modifies this
      ensures Valid()
      ensures subscription.Some? ==>
                locations == old(locations) + [sample] &&
                calls == old(calls) + [InsertLocationCall(subscription.value, sample)]
      ensures subscription.None? ==> locations == old(locations) && calls == old(calls)
      ensures running == old(running) && runId == old(runId) && subscription == old(subscription)
      ensures timer == old(timer) && isPaused == old(isPaused)
    {
      if subscription.Some? {
        locations := locations + [sample];
        calls := calls + [InsertLocationCall(subscription.value, sample)];
      }
    }

    /**
     * stopTracking: unsubscribe, issue the completion (not aborted) of the run if there is
     * one, clear the samples.
     */
    method StopTracking()
      requires Valid()
      modifies this
      ensures Valid()
      ensures subscription == None && locations == []
      ensures runId.Some? ==> calls == old(calls) + [CompleteRunCall(runId.value)]
      ensures runId.None? ==> calls == old(calls)
      ensures running == old(running) && runId == old(runId)
      ensures timer == old(timer) && isPaused == old(isPaused)
    {
      subscription := None;
      if runId.Some? {
        calls := calls + [CompleteRunCall(runId.value)];
      }
      locations := [];
    }

    /** pauseTracking: only a live subscription can be paused. */
    method PauseTracking()
      requires Valid()
      modifies this
      ensures Valid()
      ensures old(subscription).Some? ==> subscription == None && isPaused
      ensures old(subscription).None? ==> subscription == None && isPaused == old(isPaused)
      ensures running == old(running) && runId == old(runId)
      ensures locations == old(locations) && timer == old(timer) && calls == old(calls)
    {
      if subscription.Some? {
        subscription := None;
        isPaused := true;
      }
    }

    /** resumeTracking: with a run, subscribe again for it and leave the paused state. */
    method ResumeTracking(granted: bool)
      requires Valid()
      modifies this
      ensures Valid()
      ensures runId.Some? ==>
                && !isPaused
                && subscription == (if granted then runId else old(subscription))
                && running == (old(running) && granted)
      ensures runId.None? ==>
                subscription == old(subscription) && isPaused == old(isPaused) && running == old(running)
      ensures runId == old(runId) && locations == old(locations) && timer == old(timer) && calls == old(calls)
    {
      if runId.Some? {
        StartTracking(runId.value, granted);
        isPaused := false;
      }
    }

    /** The Pause/Resume button. */
    method PressPauseResume(granted: bool)
      requires Valid()
      modifies this
      ensures Valid()
      ensures old(isPaused) ==> !isPaused && subscription == (if granted then runId else None)
      ensures !old(isPaused) && old(subscription).Some? ==> isPaused && subscription == None
      ensures runId == old(runId) && locations == old(locations) && timer == old(timer) && calls == old(calls)
    {
      if isPaused {
        ResumeTracking(granted);
      } else {
        PauseTracking();
      }
    }

    /** The Stop button, which is rendered only while paused: stop, then leave the running screen. */
    method PressStop()
      requires Valid() && isPaused
      modifies this
      ensures Valid()
      ensures !running && subscription == None && locations == []
      ensures calls == old(calls) + [CompleteRunCall(old(runId).value)]
      ensures runId == old(runId) && timer == old(timer) && isPaused
    {
      StopTracking();
      running := false;
    }

    /** One timer interval: a second passes unless the session is paused. */
    method Tick()
      requires Valid()
      modifies this
      ensures Valid()
      ensures timer == if old(isPaused) then old(timer) else old(timer) + 1000
      ensures running == old(running) && runId == old(runId) && subscription == old(subscription)
      ensures locations == old(locations) && isPaused == old(isPaused) && calls == old(calls)
    {
      if !isPaused {
        timer := timer + 1000;
      }
    }

    /** The mount effect's cleanup: unsubscribe and clear the samples; the run is left as it is. */
    method Unmount()
      requires Valid()
      modifies this
      ensures Valid()
      ensures subscription == None && locations == []
      ensures running == old(running) && runId == old(runId)
      ensures timer == old(timer) && isPaused == old(isPaused) && calls == old(calls)
    {
      subscription := None;
      locations := [];
    }
  }
}
