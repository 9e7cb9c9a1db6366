/**
 * The monthly map-load quota kept in browser storage, coordinate validation
 * and marker clean-up.
 *
 * Storage is modelled as a value `Quota`: the month tag and the load count
 * (persistent storage) and the session-initialized flag (per-tab storage).
 * Each storage operation is a function from the old value and the current
 * month, and `QuotaStore` is the mutable store whose methods apply them.
 */
module MapUtils {
  import opened Js
  import opened MapSurface

  const MAPBOX_FREE_LIMIT: int := 50000
  /** Warnings start this many loads before the limit. */
  const MAPBOX_WARNING_THRESHOLD: int := 1000

  datatype Quota = Quota(month: Option<string>, count: Option<int>, sessionInitialized: bool)

  /** `parseInt(getItem(LOADS_KEY) || "0")`: a missing count reads as 0. */
  function StoredCount(q: Quota): int {
    q.count.GetOr(0)
  }

  /** `getMapboxLoads`: the new storage and the returned count. */
  function LoadsRead(q: Quota, current: string): (r: (Quota, int))
    ensures q.month != Some(current) ==>
      r.1 == 0 && r.0 == Quota(Some(current), Some(0), q.sessionInitialized)
    ensures q.month == Some(current) ==> r.0 == q && r.1 == StoredCount(q)
  {
    if q.month != Some(current) then (q.(month := Some(current), count := Some(0)), 0)
    else (q, StoredCount(q))
  }

  /** `incrementMapboxLoads`: the new storage and the returned count. */
  function LoadsIncremented(q: Quota, current: string): (r: (Quota, int))
    ensures r.0.sessionInitialized
    ensures r.0.month == Some(current) && r.0.count == Some(r.1)
    ensures q.month != Some(current) ==> r.1 == 1
    ensures q.month == Some(current) ==> r.1 == StoredCount(q) + 1
  {
    var q' := q.(sessionInitialized := true);
    if q.month != Some(current) then (q'.(month := Some(current), count := Some(1)), 1)
    else var n := StoredCount(q) + 1; (q'.(count := Some(n)), n)
  }

  /** `shouldInitializeMapbox`: the new storage and the answer. */
  function InitPermitted(q: Quota, current: string): (r: (Quota, bool))
    ensures q.month != Some(current) ==> r.1 && r.0 == LoadsRead(q, current).0
    ensures q.month == Some(current) ==> r.0 == q && (r.1 <==> StoredCount(q) < MAPBOX_FREE_LIMIT)
  {
    if q.month != Some(current) then (q.(month := Some(current), count := Some(0)), true)
    else (q, StoredCount(q) < MAPBOX_FREE_LIMIT)
  }

  /** `shouldShowWarning`: it only reads storage. */
  function WarningShown(q: Quota, current: string): (b: bool)
    ensures b <==> q.month == Some(current) && MAPBOX_FREE_LIMIT - StoredCount(q) <= MAPBOX_WARNING_THRESHOLD
  {
    if q.month != Some(current) then false
    else StoredCount(q) >= MAPBOX_FREE_LIMIT - MAPBOX_WARNING_THRESHOLD
  }

  /** `resetMapboxSessionFlag`: only the session flag is removed. */
  function SessionFlagReset(q: Quota): (r: Quota)
    ensures !r.sessionInitialized && r.month == q.month && r.count == q.count
  {
    q.(sessionInitialized := false)
  }

  /** Reading in a new month reports 0, and the next increment then returns 1. */
  lemma ReadThenIncrementInNewMonth(q: Quota, current: string)
    requires q.month != Some(current)
    ensures LoadsRead(q, current).1 == 0
    ensures LoadsIncremented(LoadsRead(q, current).0, current).1 == 1
  {
  }

  /** Whatever the month, an increment right after a read returns one more than the read. */
  lemma ReadThenIncrement(q: Quota, current: string)
    ensures LoadsIncremented(LoadsRead(q, current).0, current).1 == LoadsRead(q, current).1 + 1
  {
  }

  /** A read in a new month never warns, whatever the stale count was. */
  lemma NoWarningAfterRollover(q: Quota, current: string)
    requires q.month != Some(current)
    ensures !WarningShown(LoadsRead(q, current).0, current)
    ensures !WarningShown(q, current)
  {
  }

  /**
   * At 49 999 loads the map may still start; the increment returns 50 000 and
   * from then on neither the permission nor the initialization guard lets it start.
   */
  lemma LimitReachedAt50000(q: Quota, current: string)
    requires q.month == Some(current) && StoredCount(q) == 49999
    ensures InitPermitted(q, current).1
    ensures LoadsIncremented(q, current).1 == 50000
    ensures !InitPermitted(LoadsIncremented(q, current).0, current).1
    ensures LoadsRead(LoadsIncremented(q, current).0, current).1 >= MAPBOX_FREE_LIMIT
    ensures WarningShown(LoadsIncremented(q, current).0, current)
  {
  }

  /** Within one month the counter only grows: reads keep it, increments add one. */
  lemma CountMonotonicWithinMonth(q: Quota, current: string)
    requires q.month == Some(current)
    ensures StoredCount(LoadsRead(q, current).0) == StoredCount(q)
    ensures StoredCount(LoadsIncremented(q, current).0) == StoredCount(q) + 1
    ensures StoredCount(InitPermitted(q, current).0) == StoredCount(q)
  {
  }

  /** The browser storage behind the quota. */
  class QuotaStore {
    var month: Option<string>
    var count: Option<int>
    var sessionInitialized: bool

    function State(): Quota
      reads this
    {
      Quota(month, count, sessionInitialized)
    }

    constructor (initial: Quota)
      ensures State() == initial
    {
      month := initial.month;
      count := initial.count;
      sessionInitialized := initial.sessionInitialized;
    }

    method GetMapboxLoads(current: string) returns (n: int)
      modifies this
      ensures (State(), n) == LoadsRead(old(State()), current)
    {
      if month != Some(current) {
        month := Some(current);
        count := Some(0);
        return 0;
      }
      n := count.GetOr(0);
    }

    method IncrementMapboxLoads(current: string) returns (n: int)
      modifies this
      ensures (State(), n) == LoadsIncremented(old(State()), current)
    {
      var localMonth := month;
      sessionInitialized := true;
      if localMonth != Some(current) {
        month := Some(current);
        count := Some(1);
        return 1;
      }
      n := count.GetOr(0) + 1;
      count := Some(n);
    }

    method ShouldInitializeMapbox(current: string) returns (ok: bool)
      modifies this
      ensures (State(), ok) == InitPermitted(old(State()), current)
    {
      if month != Some(current) {
        month := Some(current);
        count := Some(0);
        return true;
      }
      ok := count.GetOr(0) < MAPBOX_FREE_LIMIT;
    }

    method ResetMapboxSessionFlag()
      modifies this
      ensures State() == SessionFlagReset(old(State()))
    {
      sessionInitialized := false;
    }

    method ShouldShowWarning(current: string) returns (b: bool)
      ensures b == WarningShown(State(), current)
    {
      if month != Some(current) {
        return false;
      }
      b := count.GetOr(0) >= MAPBOX_FREE_LIMIT - MAPBOX_WARNING_THRESHOLD;
    }
  }

  // ---------------------------------------------------------------------
  // Coordinates

  /** `isValidCoordinate`: neither value is NaN and both lie in range, bounds included. */
  predicate IsValidCoordinate(lng: Num, lat: Num) {
    lng != NaN && lat != NaN && Within(lng, -180.0, 180.0) && Within(lat, -90.0, 90.0)
  }

  /**
   * The inline check that guards marker creation and bounds fitting: it also
   * rejects an exact 0 because it starts with `!longitude || !latitude`.
   */
  predicate PlottableInline(lng: Num, lat: Num) {
    !(Falsy(lng) || Falsy(lat) || lng == NaN || lat == NaN
      || (lng.Fin? && (lng.v < -180.0 || lng.v > 180.0))
      || (lat.Fin? && (lat.v < -90.0 || lat.v > 90.0)))
  }

  /** The inline check is `isValidCoordinate` with the two zero values excluded. */
  lemma PlottableInlineIsValidAndNonZero(lng: Num, lat: Num)
    ensures PlottableInline(lng, lat) <==> (IsValidCoordinate(lng, lat) && lng != Fin(0.0) && lat != Fin(0.0))
  {
  }

  /** The origin passes `isValidCoordinate` but not the inline check. */
  lemma ZeroCoordinateDisagreement()
    ensures IsValidCoordinate(Fin(0.0), Fin(37.7))
    ensures !PlottableInline(Fin(0.0), Fin(37.7))
  {
  }

  // ---------------------------------------------------------------------
  // Markers

  /**
   * `clearAllMarkers`: `remove` is called on every marker; a marker whose
   * `remove` throws (as `throws` says) is left as it was and the error is
   * swallowed. The result is always the empty dictionary.
   */
  method ClearAllMarkers(markers: map<string, Marker>, throws: Marker -> bool) returns (r: map<string, Marker>)
    modifies markers.Values
    ensures r == map[]
    ensures forall m :: m in markers.Values ==>
      m.attached == (old(m.attached) && throws(m)) && m.visible == old(m.visible)
  {
    var todo := markers.Values;
    while todo != {}
      invariant todo <= markers.Values
      invariant forall m :: m in markers.Values ==> m.visible == old(m.visible)
      invariant forall m :: m in markers.Values ==>
        m.attached == if m in todo then old(m.attached) else old(m.attached) && throws(m)
      decreases todo
    {
      var m :| m in todo;
      if !throws(m) {
        m.Remove();
      }
      todo := todo - {m};
    }
    return map[];
  }
}
