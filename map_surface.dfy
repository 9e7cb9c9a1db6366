/**
 * The map-rendering SDK as opaque handles: markers that can be hidden and
 * removed, the shared marker dictionary, and a map view with its line
 * layers and data sources.
 */
module MapSurface {
  import opened Js
  import opened Types

  /** The marker's DOM element: its class list, its optional capacity-ring child and `dataset`. */
  datatype Element = Element(classes: seq<string>, ring: Option<seq<string>>, dataset: map<string, string>)

  /**
   * Popup content, by what it is built from. An asset popup holds the plain
   * text that `MarkerCreator.CreateMarkerPopup` renders from these three
   * fields. HTML formatting of sizes, dates and kilowatts is not modelled.
   */
  datatype Popup =
    | AssetPopup(assetType: AssetType, id: string, gridCapacity: Option<GridCapacity>)
    | HousePopup(systemId: string, nearest: Option<PgeSubstation>)
    | SubstationPopup(title: string)

  datatype LngLat = LngLat(lng: real, lat: real)

  /** A marker handle. `visible` is the element's CSS visibility; `attached` says it is on the map. */
  class Marker {
    const element: Element
    const popup: Popup
    const position: LngLat
    /** Id of the asset handed to the selection callback on click, if any. */
    const selects: Option<string>
    var visible: bool
    var attached: bool

    /** `new Marker({element}).setLngLat(..).setPopup(..).addTo(map)`: attached and visible. */
    constructor (element: Element, popup: Popup, position: LngLat, selects: Option<string>)
      ensures this.element == element && this.popup == popup
      ensures this.position == position && this.selects == selects
      ensures visible && attached
    {
      this.element := element;
      this.popup := popup;
      this.position := position;
      this.selects := selects;
      visible := true;
      attached := true;
    }

    method Remove()
      modifies this
      ensures !attached && visible == old(visible)
    {
      attached := false;
    }

    /** `getElement().style.visibility = v ? 'visible' : 'hidden'`. */
    method SetVisible(v: bool)
      modifies this
      ensures visible == v && attached == old(attached)
    {
      visible := v;
    }
  }

  /** Registering under `k` after a merge is the merge of the updated right-hand side. */
  lemma MergeUpdate<K, V>(a: map<K, V>, b: map<K, V>, k: K, v: V)
    ensures (a + b)[k := v] == a + b[k := v]
  {
  }

  /**
   * `markers[key] = marker; markersRendered[key] = true`. The ghost
   * arguments say the dictionary is `before` with the markers `made` so far
   * laid over it; the new marker is laid over it as well.
   */
  method RegisterMarker(markers: MarkersRef, rendered: RenderedRef, key: string, m: Marker,
                        ghost before: map<string, Marker>, ghost made: map<string, Marker>)
    requires markers.current == before + made
    modifies markers, rendered
    ensures markers.current == before + made[key := m]
    ensures rendered.current == old(rendered.current) + {key}
  {
    MergeUpdate(before, made, key, m);
    markers.current := markers.current[key := m];
    rendered.current := rendered.current + {key};
  }

  /** A React ref holding the dictionary of live markers, shared by the map hooks and components. */
  class MarkersRef {
    var current: map<string, Marker>

    constructor ()
      ensures current == map[]
    {
      current := map[];
    }
  }

  /** A React ref holding the set of marker keys already rendered in this pass. */
  class RenderedRef {
    var current: set<string>

    constructor ()
      ensures current == {}
    {
      current := {};
    }
  }

  /** A React ref holding the ids of the connection layers added to the map. */
  class LayerIdsRef {
    var current: seq<string>

    constructor ()
      ensures current == []
    {
      current := [];
    }
  }

  datatype LinePaint = LinePaint(color: string, width: int, opacity: real)

  /** A map instance: whether it was removed, whether its style is loaded, and its line layers and sources. */
  class MapView {
    var removed: bool
    var hasStyle: bool
    var layers: map<string, LinePaint>
    var sources: set<string>

    constructor ()
      ensures !removed && !hasStyle && layers == map[] && sources == {}
    {
      removed := false;
      hasStyle := false;
      layers := map[];
      sources := {};
    }

    method Remove()
      modifies this
      ensures removed && hasStyle == old(hasStyle)
      ensures layers == old(layers) && sources == old(sources)
    {
      removed := true;
    }

    /**
     * The guarded clean-up of one connection: the layer and then the source are
     * removed only when the style exists and they are present.
     */
    method RemoveLayerAndSource(id: string)
      modifies this
      ensures removed == old(removed) && hasStyle == old(hasStyle)
      ensures layers == if hasStyle then old(layers) - {id} else old(layers)
      ensures sources == if hasStyle then old(sources) - {id} else old(sources)
    {
      if hasStyle && id in layers {
        layers := layers - {id};
      }
      if hasStyle && id in sources {
        sources := sources - {id};
      }
    }

    /** `addSource`; `throws` says whether the map library rejects the call. */
    method AddSource(id: string, throws: bool) returns (ok: bool)
      modifies this
      ensures ok == !throws
      ensures sources == if ok then old(sources) + {id} else old(sources)
      ensures layers == old(layers) && removed == old(removed) && hasStyle == old(hasStyle)
    {
      ok := !throws;
      if ok {
        sources := sources + {id};
      }
    }

    /** `addLayer` of a line layer drawn from the source of the same id. */
    method AddLayer(id: string, paint: LinePaint, throws: bool) returns (ok: bool)
      modifies this
      ensures ok == !throws
      ensures layers == if ok then old(layers)[id := paint] else old(layers)
      ensures sources == old(sources) && removed == old(removed) && hasStyle == old(hasStyle)
    {
      ok := !throws;
      if ok {
        layers := layers[id := paint];
      }
    }
  }

  /** `Object.values(markers).forEach(m => m.remove())`: every given marker is detached. */
  method RemoveAll(ms: set<Marker>)
    modifies ms
    ensures forall m :: m in ms ==> !m.attached && m.visible == old(m.visible)
  {
    var todo := ms;
    while todo != {}
      invariant todo <= ms
      invariant forall m :: m in ms ==> m.visible == old(m.visible)
      invariant forall m :: m in ms - todo ==> !m.attached
      decreases todo
    {
      var m :| m in todo;
      m.Remove();
      todo := todo - {m};
    }
  }
}
