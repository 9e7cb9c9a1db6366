/**
 * The map initialization hook as a state machine. Its refs and state
 * (`mapInitAttempted`, `mapInitializedInSession`, `map`, `markers`, the timers)
 * are the fields of `MapSession`; each effect, timer callback and map event
 * is a method, and the timers are explicit events: the 300 ms delayed
 * initialization, the map's `load` event and the 5 s load timeout.
 */
module MapInitialization {
  import opened Js
  import opened MapSurface
  import opened MapUtils

  /** The control flags of the hook, grouped so that contracts can say which of them change. */
  datatype Control = Control(
    attempted: bool,
    inSession: bool,
    mapInitialized: bool,
    showTokenInput: bool,
    delayPending: bool,
    timeoutPending: bool,
    loadPending: bool)

  class MapSession {
    /** Browser storage with the load quota. */
    const store: QuotaStore
    /** The `markers` ref, shared with the marker components. */
    const markers: MarkersRef
    /** `map.current`. */
    var view: MapView?
    /** Whether `mapContainer.current` is mounted. */
    var containerPresent: bool
    var token: Option<string>
    var mapboxLoads: int
    var showLimitWarning: bool
    /** `mapInitAttempted.current`. */
    var attempted: bool
    /** `mapInitializedInSession.current`. */
    var inSession: bool
    /** The `mapInitialized` state. */
    var mapInitialized: bool
    var showTokenInput: bool
    /** The 300 ms initialization timer held in `initTimeoutRef` is scheduled. */
    var delayPending: bool
    /** The 5 s load timeout is scheduled (it is never cancelled). */
    var timeoutPending: bool
    /** The current map still has its `load` listener waiting. */
    var loadPending: bool
    /** Every map instance this hook has created. */
    ghost var maps: set<MapView>

    function Ctl(): Control
      reads this
    {
      Control(attempted, inSession, mapInitialized, showTokenInput, delayPending, timeoutPending, loadPending)
    }

    /**
     * The invariant: at most one map instance is live, and it is `view`; a
     * pending timer or listener is consistent with the attempt flags.
     */
    ghost predicate Valid()
      reads this, maps
    {
      && (view != null ==> view in maps && !view.removed)
      && (forall m :: m in maps && m != view ==> m.removed)
      && (loadPending ==> view != null)
      && (delayPending ==> attempted && !inSession && !timeoutPending && !loadPending)
      && (timeoutPending ==> attempted || inSession)
      && (inSession ==> mapInitialized && !loadPending && !attempted)
    }

    /** Every attempt in flight still has a timer that will end it. */
    predicate Live()
      reads this
    {
      attempted ==> delayPending || timeoutPending
    }

    constructor (store: QuotaStore, markers: MarkersRef, token: Option<string>, containerPresent: bool)
      ensures Valid() && fresh(this)
      ensures this.store == store && this.markers == markers
      ensures this.token == token && this.containerPresent == containerPresent
      ensures view == null && maps == {} && mapboxLoads == 0 && !showLimitWarning
      ensures Ctl() == Control(false, false, false, false, false, false, false)
    {
      this.store := store;
      this.markers := markers;
      this.token := token;
      this.containerPresent := containerPresent;
      view := null;
      maps := {};
      mapboxLoads := 0;
      showLimitWarning := false;
      attempted, inSession, mapInitialized, showTokenInput := false, false, false, false;
      delayPending, timeoutPending, loadPending := false, false, false;
    }

    /** The storage the mount effect reads from: the session flag is reset first unless a map is up. */
    function MountQuota(q: Quota): Quota
      reads this
    {
      if !mapInitialized && !inSession then SessionFlagReset(q) else q
    }

    /**
     * The mount effect (it re-runs when `mapInitialized` changes): reset the
     * session flag unless a map is up, then read the load count and the warning.
     */
    method MountEffect(current: string)
      requires Valid()
      modifies this, store
      ensures Valid()
      ensures store.State() == LoadsRead(old(MountQuota(store.State())), current).0
      ensures mapboxLoads == LoadsRead(old(MountQuota(store.State())), current).1
      ensures showLimitWarning == WarningShown(store.State(), current)
      ensures Ctl() == old(Ctl()) && view == old(view) && maps == old(maps)
      ensures token == old(token) && containerPresent == old(containerPresent)
    {
      if !mapInitialized && !inSession {
        store.ResetMapboxSessionFlag();
      }
      var loads := store.GetMapboxLoads(current);
      mapboxLoads := loads;
      showLimitWarning := store.ShouldShowWarning(current);
    }

    /** The guards of the initialization effect before the quota is read. */
    predicate MayAttempt()
      reads this
    {
      !inSession && !attempted && containerPresent && !FalsyString(token)
    }

    /**
     * The body of the initialization effect. No attempt starts while a map is
     * up in this session, an attempt is in flight, the container is missing
     * or the token is empty, nor when the stored loads have reached the limit;
     * otherwise `attempted` is set and the 300 ms timer is scheduled. The
     * counter is never incremented here. The body runs after the previous
     * run's clean-up, so no map exists when it starts.
     */
    method InitEffect(current: string) returns (started: bool)
      requires Valid() && view == null
      modifies this, store
      ensures Valid()
      ensures started <==> old(MayAttempt()) && LoadsRead(old(store.State()), current).1 < MAPBOX_FREE_LIMIT
      ensures !old(MayAttempt()) ==> store.State() == old(store.State()) && mapboxLoads == old(mapboxLoads)
      ensures old(MayAttempt()) ==> store.State() == LoadsRead(old(store.State()), current).0
      ensures started ==> Ctl() == old(Ctl()).(attempted := true, delayPending := true)
      ensures !started ==> Ctl() == old(Ctl())
      ensures old(MayAttempt()) && !started ==>
        mapboxLoads == LoadsRead(old(store.State()), current).1
        && showLimitWarning == WarningShown(store.State(), current)
      ensures view == old(view) && maps == old(maps)
      ensures token == old(token) && containerPresent == old(containerPresent)
    {
      if inSession || attempted || !containerPresent || FalsyString(token) {
        return false;
      }
      ghost var q := store.State();
      var loads := store.GetMapboxLoads(current);
      if loads >= MAPBOX_FREE_LIMIT {
        var again := store.GetMapboxLoads(current);
        mapboxLoads := again;
        showLimitWarning := store.ShouldShowWarning(current);
        return false;
      }
      attempted := true;
      delayPending := true;
      started := true;
    }

    /**
     * The 300 ms timer fires. The count is incremented exactly once; at the
     * limit the warning is shown, `attempted` is reset and no map is created.
     * Otherwise `CreateMap` runs.
     */
    method FireInitTimer(current: string, createThrows: bool)
      requires Valid()
      modifies this, store, markers, markers.current.Values, maps
      ensures Valid()
      ensures token == old(token) && containerPresent == old(containerPresent)
      ensures !old(delayPending) ==>
        Ctl() == old(Ctl()) && store.State() == old(store.State()) && view == old(view)
        && markers.current == old(markers.current) && mapboxLoads == old(mapboxLoads)
      ensures old(delayPending) ==>
        store.State() == LoadsIncremented(old(store.State()), current).0
        && mapboxLoads == LoadsIncremented(old(store.State()), current).1
        && !delayPending
      ensures old(delayPending) && mapboxLoads >= MAPBOX_FREE_LIMIT ==>
        showLimitWarning && Ctl() == old(Ctl()).(attempted := false, delayPending := false)
        && view == old(view) && markers.current == old(markers.current)
      ensures old(delayPending) && mapboxLoads < MAPBOX_FREE_LIMIT ==>
        NewMapOutcome(old(view), old(markers.current), old(maps), old(Ctl()).(delayPending := false), createThrows)
    {
      if !delayPending {
        return;
      }
      delayPending := false;
      var newCount := store.IncrementMapboxLoads(current);
      mapboxLoads := newCount;
      if newCount >= MAPBOX_FREE_LIMIT {
        showLimitWarning := true;
        attempted := false;
        return;
      }
      CreateMap(createThrows);
    }

    /**
     * What creating a map leaves behind, given the map, markers, maps and flags
     * before it: the old map and its markers are gone (the dictionary is emptied
     * only when there was a map), and either the constructor threw and the token
     * input is shown with `attempted` reset, or a fresh map is the only live one
     * and waits for its `load` event and its 5 s timeout.
     */
    twostate predicate NewMapOutcome(oldView: MapView?, oldMarkers: map<string, Marker>, oldMaps: set<MapView>,
                                     ctl: Control, createThrows: bool)
      reads this, markers, oldView, oldMarkers.Values, oldMaps
    {
      && (oldView != null ==>
            oldView.removed && markers.current == map[]
            && forall m :: m in oldMarkers.Values ==> !m.attached)
      && (oldView == null ==> markers.current == oldMarkers)
      && (createThrows ==>
            view == null && maps == oldMaps
            && Ctl() == ctl.(attempted := false, showTokenInput := true, loadPending := false))
      && (!createThrows ==>
            view != null && fresh(view) && maps == oldMaps + {view}
            && Ctl() == ctl.(loadPending := true, timeoutPending := true))
    }

    /**
     * Lines after the limit check: an existing map is torn down, then the
     * new map is created; its constructor may throw (`createThrows`).
     */
    method CreateMap(createThrows: bool)
      requires Valid() && attempted && !inSession && !timeoutPending && !delayPending
      modifies this, markers, markers.current.Values, maps
      ensures Valid()
      ensures NewMapOutcome(old(view), old(markers.current), old(maps), old(Ctl()), createThrows)
      ensures mapboxLoads == old(mapboxLoads) && showLimitWarning == old(showLimitWarning)
      ensures token == old(token) && containerPresent == old(containerPresent)
    {
      if view != null {
        TearDownMap();
      }
      if createThrows {
        showTokenInput := true;
        attempted := false;
        return;
      }
      var m := new MapView();
      view := m;
      maps := maps + {m};
      loadPending := true;
      timeoutPending := true;
    }

    /** The map's `load` event: the session counts as initialized and the attempt is over. */
    method FireLoad()
      requires Valid()
      modifies this
      ensures Valid()
      ensures old(loadPending) ==>
        Ctl() == old(Ctl()).(inSession := true, mapInitialized := true, attempted := false, loadPending := false)
      ensures !old(loadPending) ==> Ctl() == old(Ctl())
      ensures view == old(view) && maps == old(maps) && mapboxLoads == old(mapboxLoads)
      ensures showLimitWarning == old(showLimitWarning) && token == old(token)
      ensures containerPresent == old(containerPresent)
    {
      if loadPending {
        inSession := true;
        mapInitialized := true;
        attempted := false;
        loadPending := false;
      }
    }

    /** The 5 s timeout: if the map has not loaded, show the token input and allow a new attempt. */
    method FireTimeout()
      requires Valid()
      modifies this
      ensures Valid()
      ensures old(timeoutPending) && !old(inSession) ==>
        Ctl() == old(Ctl()).(timeoutPending := false, showTokenInput := true, attempted := false)
      ensures old(timeoutPending) && old(inSession) ==> Ctl() == old(Ctl()).(timeoutPending := false)
      ensures !old(timeoutPending) ==> Ctl() == old(Ctl())
      ensures view == old(view) && maps == old(maps) && mapboxLoads == old(mapboxLoads)
      ensures showLimitWarning == old(showLimitWarning) && token == old(token)
      ensures containerPresent == old(containerPresent)
    {
      if timeoutPending {
        timeoutPending := false;
        if !inSession {
          showTokenInput := true;
          attempted := false;
        }
      }
    }

    /**
     * The clean-up of the initialization effect (token change or unmount):
     * the 300 ms timer is cancelled and, if a map exists, its markers are
     * removed, the dictionary emptied and the map removed and dropped.
     * `attempted` is left as it is.
     */
    method Cleanup()
      requires Valid()
      modifies this, markers, markers.current.Values, maps
      ensures Valid()
      ensures view == null && Ctl() == old(Ctl()).(delayPending := false, loadPending := false)
      ensures old(view) != null ==>
        old(view).removed && markers.current == map[]
        && forall m :: m in old(markers.current.Values) ==> !m.attached
      ensures old(view) == null ==> markers.current == old(markers.current)
      ensures maps == old(maps) && mapboxLoads == old(mapboxLoads)
      ensures showLimitWarning == old(showLimitWarning) && token == old(token)
      ensures containerPresent == old(containerPresent)
    {
      delayPending := false;
      if view != null {
        TearDownMap();
      }
    }

    /** Removing the existing map: every marker is removed, the dictionary emptied, the map removed and dropped. */
    method TearDownMap()
      requires Valid() && view != null
      modifies this, markers, markers.current.Values, maps
      ensures Valid()
      ensures old(view).removed && view == null && markers.current == map[]
      ensures forall m :: m in old(markers.current.Values) ==> !m.attached
      ensures Ctl() == old(Ctl()).(loadPending := false)
      ensures maps == old(maps) && mapboxLoads == old(mapboxLoads)
      ensures showLimitWarning == old(showLimitWarning) && token == old(token)
      ensures containerPresent == old(containerPresent)
    {
      RemoveAll(markers.current.Values);
      markers.current := map[];
      view.Remove();
      view := null;
      loadPending := false;
    }

    /**
     * `setMapboxToken(t)`: a changed token runs the effect's clean-up and then
     * its body. Only a run that scheduled the timer registers the clean-up; a
     * run that returned early leaves neither a map nor a pending timer behind,
     * so running `Cleanup` there as well changes nothing.
     */
    method SetToken(t: string, current: string) returns (started: bool)
      requires Valid()
      modifies this, store, markers, markers.current.Values, maps
      ensures Valid()
      ensures Some(t) == old(token) ==> !started && Ctl() == old(Ctl()) && view == old(view)
      ensures Some(t) == old(token) ==> markers.current == old(markers.current) && store.State() == old(store.State())
      ensures Some(t) != old(token) ==> token == Some(t) && view == null
      ensures Some(t) != old(token) ==>
        (started <==> (!old(inSession) && !old(attempted) && containerPresent && t != ""
                       && LoadsRead(old(store.State()), current).1 < MAPBOX_FREE_LIMIT))
      ensures Some(t) != old(token) ==>
        Ctl() == old(Ctl()).(attempted := old(attempted) || started, delayPending := started, loadPending := false)
      ensures old(view) == null ==> markers.current == old(markers.current)
      ensures Some(t) != old(token) && old(view) != null ==> markers.current == map[]
      ensures maps == old(maps) && containerPresent == old(containerPresent)
    {
      if Some(t) == token {
        return false;
      }
      Cleanup();
      token := Some(t);
      started := InitEffect(current);
    }

    /**
     * The clean-up with the attempt flag cleared when the pending 300 ms timer
     * is cancelled: a cancelled timer no longer ends the attempt, so the
     * attempt is over.
     */
    method CleanupCorrected()
      requires Valid() && Live()
      modifies this, markers, markers.current.Values, maps
      ensures Valid() && Live()
      ensures view == null
      ensures Ctl() == old(Ctl()).(attempted := old(attempted) && !old(delayPending), delayPending := false, loadPending := false)
      ensures old(view) != null ==>
        old(view).removed && markers.current == map[]
        && forall m :: m in old(markers.current.Values) ==> !m.attached
      ensures old(view) == null ==> markers.current == old(markers.current)
      ensures maps == old(maps) && mapboxLoads == old(mapboxLoads)
      ensures showLimitWarning == old(showLimitWarning) && token == old(token)
      ensures containerPresent == old(containerPresent)
    {
      if delayPending {
        attempted := false;
      }
      delayPending := false;
      if view != null {
        TearDownMap();
      }
    }

    /**
     * A token change using the corrected clean-up: unless the 5 s timeout of a
     * created map is still pending, the new token always gets an attempt when
     * the session, container and quota allow one.
     */
    method SetTokenCorrected(t: string, current: string) returns (started: bool)
      requires Valid() && Live()
      modifies this, store, markers, markers.current.Values, maps
      ensures Valid() && Live()
      ensures Some(t) != old(token) ==> token == Some(t)
      ensures (Some(t) != old(token) && !old(inSession) && !old(timeoutPending) && t != "" && containerPresent
               && LoadsRead(old(store.State()), current).1 < MAPBOX_FREE_LIMIT) ==> started
      ensures started ==> attempted && delayPending
    {
      if Some(t) == token {
        return false;
      }
      CleanupCorrected();
      token := Some(t);
      started := InitEffect(current);
    }
  }

  /**
   * Two token edits less than 300 ms apart, as written. The hook mounts with
   * a token and starts an attempt; the map never loads, so the 5 s timeout
   * shows the token input and clears `attempted`. The first edit in that
   * input starts an attempt; the second edit's clean-up cancels the pending
   * timer but leaves `attempted` set, so its effect body returns early and
   * no timer, listener or timeout is left that could ever clear the flag;
   * later edits return early too.
   */
  method QuickTokenEditStalls(current: string) returns (s: MapSession)
    ensures s.Valid() && !s.Live() && s.showTokenInput
    ensures s.attempted && !s.delayPending && !s.timeoutPending && !s.loadPending && s.view == null
  {
    var store := new QuotaStore(Quota(Some(current), Some(10), false));
    var markers := new MarkersRef();
    s := new MapSession(store, markers, Some("pk.token"), true);
    s.MountEffect(current);
    var started := s.InitEffect(current);
    assert started;
    s.FireInitTimer(current, false);
    s.FireTimeout();
    assert s.showTokenInput && !s.attempted;
    started := s.SetToken("x", current);
    assert started;
    started := s.SetToken("xy", current);
    assert !started;
    started := s.SetToken("xyz", current);
    assert !started;
  }

  /**
   * The quota scenario of the limit: with 49 999 loads stored an attempt
   * starts, its timer raises the count to 50 000 and creates no map, and
   * the next attempt is refused without touching the counter.
   */
  method LimitScenario(current: string) returns (s: MapSession, startedAgain: bool)
    ensures !startedAgain && s.mapboxLoads == 50000 && StoredCount(s.store.State()) == 50000
    ensures s.view == null && !s.attempted && s.showLimitWarning
  {
    var store := new QuotaStore(Quota(Some(current), Some(49999), false));
    var markers := new MarkersRef();
    s := new MapSession(store, markers, Some("pk.token"), true);
    var started := s.InitEffect(current);
    assert started;
    s.FireInitTimer(current, false);
    assert s.mapboxLoads == 50000 && s.view == null && !s.attempted && s.showLimitWarning;
    startedAgain := s.InitEffect(current);
  }
}
