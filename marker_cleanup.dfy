/**
 * The marker clean-up hook (src/components/map/hooks/useMarkerCleanup.ts):
 * zoom-dependent visibility of the live markers, and the clean-up that runs
 * when the map component unmounts.
 */
module MarkerCleanup {
  import opened Js
  import opened Types
  import opened MapSurface
  import opened MapUtils
  import opened MapMarkers
  import opened SubstationMarkers
  import opened ConnectionLines

  /** Below this zoom level markers are hidden. */
  const MIN_VISIBLE_ZOOM: real := 2.0

  /**
   * `handleZoomEnd`: every marker in the dictionary is hidden below zoom 2
   * and shown from zoom 2 on; nothing is attached or detached.
   */
  method HandleZoomEnd(markers: MarkersRef, zoom: real)
    modifies markers.current.Values
    ensures forall m :: m in markers.current.Values ==>
      m.visible == (zoom >= MIN_VISIBLE_ZOOM) && m.attached == old(m.attached)
  {
    var todo := markers.current.Values;
    while todo != {}
      invariant todo <= markers.current.Values
      invariant forall m :: m in markers.current.Values ==> m.attached == old(m.attached)
      invariant forall m :: m in markers.current.Values - todo ==> m.visible == (zoom >= MIN_VISIBLE_ZOOM)
      decreases todo
    {
      var m :| m in todo;
      m.SetVisible(zoom >= MIN_VISIBLE_ZOOM);
      todo := todo - {m};
    }
  }

  /**
   * The zoom effect: with a map, the handler is registered and run once for
   * the current zoom; without one nothing happens.
   */
  method ZoomEffect(mapPresent: bool, markers: MarkersRef, zoom: real)
    modifies markers.current.Values
    ensures forall m :: m in markers.current.Values ==>
      m.visible == (if mapPresent then zoom >= MIN_VISIBLE_ZOOM else old(m.visible))
      && m.attached == old(m.attached)
  {
    if mapPresent {
      HandleZoomEnd(markers, zoom);
    }
  }

  /**
   * The visibility is applied only on `zoomend`: after the map was zoomed
   * out below 2, a substation whose key is not yet rendered gets its marker
   * registered by the substation pass, and the dictionary then holds that
   * visible marker next to the older, hidden ones until the next zoom ends.
   */
  method ZoomedOutThenNewMarker(markers: MarkersRef, rendered: RenderedRef, s: PgeSubstation) returns (m: Marker)
    requires IsValidCoordinate(s.longitude, s.latitude) && SubstationKey(s) !in rendered.current
    modifies markers, rendered, markers.current.Values
    ensures fresh(m) && ShowsSubstation(m, s)
    ensures markers.current == old(markers.current)[SubstationKey(s) := m]
    ensures rendered.current == old(rendered.current) + {SubstationKey(s)}
    ensures markers.current[SubstationKey(s)].visible
    ensures forall k :: k in markers.current && k != SubstationKey(s) ==> !markers.current[k].visible
  {
    HandleZoomEnd(markers, 1.0);
    m := NewSubstationMarker(s);
    assert markers.current + map[] == markers.current;
    RegisterMarker(markers, rendered, SubstationKey(s), m, markers.current, map[]);
  }

  /**
   * The unmount clean-up: every marker is removed (a failing `remove` is
   * swallowed), the dictionary is emptied and the creation flag cleared; with
   * a map and a non-empty layer list the listed connection layers and
   * sources are removed as well. The layer list itself is kept.
   */
  method UnmountCleanup(layer: MarkerLayer, view: MapView?, layerIds: LayerIdsRef, removeThrows: Marker -> bool)
    modifies layer, layer.markers, layer.markers.current.Values, view
    ensures layer.markers.current == map[] && !layer.created
    ensures layer.stable == old(layer.stable)
    ensures forall m :: m in old(layer.markers.current.Values) ==>
      m.attached == (old(m.attached) && removeThrows(m)) && m.visible == old(m.visible)
    ensures view != null ==> view.removed == old(view.removed) && view.hasStyle == old(view.hasStyle)
    ensures view != null && |layerIds.current| > 0 ==>
      Canvas(view.layers, view.sources) == Cleared(Canvas(old(view.layers), old(view.sources)), layerIds.current, view.hasStyle)
    ensures view != null && |layerIds.current| == 0 ==>
      view.layers == old(view.layers) && view.sources == old(view.sources)
    ensures layerIds.current == old(layerIds.current)
  {
    var _ := ClearAllMarkers(layer.markers.current, removeThrows);
    layer.markers.current := map[];
    layer.created := false;
    if view != null && |layerIds.current| > 0 {
      RemoveConnectionLayers(view, layerIds.current);
    }
  }
}
