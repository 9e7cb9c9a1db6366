/**
 * The marker layer of the map (src/components/map/MapMarkers.tsx): the
 * filter-change reset, the asset marker rebuild and the gate that lets the
 * house, substation and bounds children render.
 */
module MapMarkers {
  import opened Js
  import opened Types
  import opened MapSurface
  import opened MapUtils
  import opened AssetFilter
  import opened MarkerCreator
  import opened MarkerPass

  function AssetKey(a: Asset): string {
    "asset-" + a.id
  }

  /** The rebuild pass gives `a` a marker unless its coordinates fail the inline check or the SDK throws. */
  predicate Placed(a: Asset, sdkThrows: Asset -> bool) {
    PlottableInline(a.longitude, a.latitude) && !sdkThrows(a)
  }

  /** `Placed` as the eligibility test of the generic pass. */
  function PlacedBy(sdkThrows: Asset -> bool): Asset -> bool {
    a => Placed(a, sdkThrows)
  }

  /** The keys of the assets of `s` that get a marker. */
  function PlacedKeys(s: seq<Asset>, sdkThrows: Asset -> bool): set<string> {
    EligibleKeys(s, PlacedBy(sdkThrows), AssetKey)
  }

  /** Each marker of `mp` shows the asset registered under its key. */
  ghost predicate ShowsEach(mp: map<string, Marker>, shown: map<string, Asset>) {
    forall k :: k in shown ==> k in mp && ShowsAsset(mp[k], shown[k])
  }

  /**
   * An asset on the prime meridian passes `filterAssets` (which accepts 0)
   * but is never given a marker (the inline check rejects it).
   */
  lemma {:induction false} MeridianAssetFilteredButNotPlaced(a: Asset, f: AssetFilters, sdkThrows: Asset -> bool)
    requires Matches(a, f) && a.longitude == Fin(0.0)
    ensures FilterAssets([a], f) == [a]
    ensures PlacedKeys(FilterAssets([a], f), sdkThrows) == {}
  {
    assert [a][1..] == [];
    assert FilterAssets([a][1..], f) == [];
  }

  /** The component's refs and state: the shared marker dictionary, the rendered keys and two flags. */
  class MarkerLayer {
    const markers: MarkersRef
    const rendered: RenderedRef
    /** `markersCreated.current` */
    var created: bool
    /** the `markersStable` state */
    var stable: bool

    constructor (markers: MarkersRef)
      ensures this.markers == markers && fresh(rendered)
      ensures rendered.current == {} && !created && !stable
    {
      this.markers := markers;
      rendered := new RenderedRef();
      created := false;
      stable := false;
    }

    /** The child layers (houses, substations, bounds) are rendered only once the rebuild is stable. */
    predicate ChildrenRendered(mapPresent: bool, mapInitialized: bool, palmettoLoaded: bool)
      reads this
    {
      mapPresent && mapInitialized && palmettoLoaded && stable
    }

    /**
     * The filter-change effect: with an initialized map it clears the
     * creation flag and the rendered keys and marks the layer unstable,
     * which hides the children until the next rebuild.
     */
    method OnFiltersChanged(mapPresent: bool, mapInitialized: bool)
      modifies this, rendered
      ensures mapPresent && mapInitialized ==>
        !created && rendered.current == {} && !stable
        && forall p :: !ChildrenRendered(mapPresent, mapInitialized, p)
      ensures !(mapPresent && mapInitialized) ==>
        created == old(created) && stable == old(stable) && rendered.current == old(rendered.current)
      ensures markers.current == old(markers.current)
    {
      if !mapPresent || !mapInitialized {
        return;
      }
      created := false;
      rendered.current := {};
      stable := false;
    }

    /**
     * The rebuild effect. It runs only with an initialized map, loaded
     * house data and the creation flag clear. It then removes every live
     * marker (house and substation markers included), empties both
     * dictionaries, and creates one marker per key of the filtered assets
     * that pass the inline check and whose creation does not throw; the
     * first such asset of each id wins.
     */
    method Rebuild(mapPresent: bool, mapInitialized: bool, palmettoLoaded: bool,
                   assets: seq<Asset>, filters: AssetFilters, sdkThrows: Asset -> bool)
      returns (ran: bool)
      modifies this, markers, rendered, markers.current.Values
      ensures ran <==> mapPresent && mapInitialized && palmettoLoaded && !old(created)
      ensures !ran ==>
        markers.current == old(markers.current) && rendered.current == old(rendered.current)
        && created == old(created) && stable == old(stable)
        && forall m :: m in old(markers.current.Values) ==> m.attached == old(m.attached)
      ensures ran ==> created && stable
      ensures ran ==> forall m :: m in old(markers.current.Values) ==> !m.attached
      ensures ran ==> markers.current.Keys == PlacedKeys(FilterAssets(assets, filters), sdkThrows)
      ensures ran ==> rendered.current == markers.current.Keys
      ensures ran ==> forall k :: k in markers.current ==>
        fresh(markers.current[k])
        && exists i :: FirstWithKey(FilterAssets(assets, filters), PlacedBy(sdkThrows), AssetKey, i, k)
                       && ShowsAsset(markers.current[k], FilterAssets(assets, filters)[i])
      ensures forall m :: m in old(markers.current.Values) ==> m.visible == old(m.visible)
    {
      if !mapPresent || !mapInitialized || created || !palmettoLoaded {
        return false;
      }
      RemoveAll(markers.current.Values);
      markers.current := map[];
      rendered.current := {};
      var filtered := FilterAssets(assets, filters);
      RenderAssetMarkers(filtered, sdkThrows, markers, rendered);
      PassKeys(filtered, PlacedBy(sdkThrows), AssetKey, {}, map[]);
      PassFirstWins(filtered, PlacedBy(sdkThrows), AssetKey, {}, map[]);
      created := true;
      stable := true;
      return true;
    }
  }

  /**
   * The creation loop of the rebuild: every asset that passes the inline
   * check, whose key is not yet rendered and whose creation does not throw
   * gets a new marker registered in both dictionaries.
   */
  method RenderAssetMarkers(filtered: seq<Asset>, sdkThrows: Asset -> bool,
                            markers: MarkersRef, rendered: RenderedRef)
    modifies markers, rendered
    ensures var added := Pass(filtered, PlacedBy(sdkThrows), AssetKey, old(rendered.current), map[]);
      && rendered.current == old(rendered.current) + added.Keys
      && markers.current.Keys == old(markers.current).Keys + added.Keys
      && (forall k :: k in old(markers.current) && k !in added ==> markers.current[k] == old(markers.current)[k])
      && (forall k :: k in added ==> fresh(markers.current[k]) && ShowsAsset(markers.current[k], added[k]))
  {
    ghost var done := rendered.current;
    ghost var before := markers.current;
    ghost var added: map<string, Asset> := map[];
    ghost var made: map<string, Marker> := map[];
    for i := 0 to |filtered|
      invariant Pass(filtered[i..], PlacedBy(sdkThrows), AssetKey, done, added)
             == Pass(filtered, PlacedBy(sdkThrows), AssetKey, done, map[])
      invariant rendered.current == done + added.Keys
      invariant markers.current == before + made
      invariant made.Keys == added.Keys
      invariant forall k :: k in made ==> fresh(made[k])
      invariant forall k :: k in made ==> ShowsAsset(made[k], added[k])
    {
      assert filtered[i..][1..] == filtered[i + 1..];
      PassStep(filtered[i..], PlacedBy(sdkThrows), AssetKey, done, added);
      var a := filtered[i];
      var key := AssetKey(a);
      if PlottableInline(a.longitude, a.latitude) && key !in rendered.current {
        var m := CreateMapMarker(a, sdkThrows(a));
        if m != null {
          RegisterMarker(markers, rendered, key, m, before, made);
          added := added[key := a];
          made := made[key := m];
        }
      }
    }
  }
}
