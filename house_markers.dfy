/** The house marker pass (src/components/map/components/HouseMarkers.tsx). */
module HouseMarkers {
  import opened Js
  import opened Types
  import opened MapSurface
  import opened MapUtils
  import opened SubstationUtils
  import opened MarkerPass

  function HouseKey(h: PalmettoHouse): string {
    "palmetto-" + h.id
  }

  /** The inline check: zero, NaN or out-of-range coordinates get no marker. */
  predicate Plottable(h: PalmettoHouse) {
    PlottableInline(h.longitude, h.latitude)
  }

  /**
   * What the marker of house `h` shows: a `house-marker` element carrying
   * the house id, the house position, and a popup with the system id and
   * the nearest substation, if the search found one.
   */
  ghost predicate ShowsHouse(m: Marker, h: PalmettoHouse, subs: seq<PgeSubstation>,
                             dist: (PalmettoHouse, PgeSubstation) -> real) {
    h.longitude.Fin? && h.latitude.Fin?
    && m.element == Element(["house-marker"], None, map["houseId" := h.id])
    && m.position == LngLat(h.longitude.v, h.latitude.v)
    && m.popup.HousePopup? && m.popup.systemId == h.palmettoSystemId
    && NearestChoice(h, subs, dist, m.popup.nearest)
    && m.selects == None
  }

  /** The marker of one house, with the nearest substation looked up for its popup. */
  method NewHouseMarker(h: PalmettoHouse, subs: seq<PgeSubstation>,
                        dist: (PalmettoHouse, PgeSubstation) -> real) returns (m: Marker)
    requires PlottableInline(h.longitude, h.latitude)
    ensures fresh(m) && ShowsHouse(m, h, subs, dist)
  {
    var nearest := FindNearestSubstation(h, subs, dist);
    var el := Element(["house-marker"], None, map["houseId" := h.id]);
    m := new Marker(el, HousePopup(h.palmettoSystemId, nearest), LngLat(h.longitude.v, h.latitude.v), None);
  }

  /**
   * The pass: every house with plottable coordinates whose key is not yet
   * rendered gets a new marker, registered in both dictionaries. The
   * markers added are those of `Pass`, which keeps the first house of each
   * key and skips the keys already rendered.
   */
  method RenderHouseMarkers(houses: seq<PalmettoHouse>, subs: seq<PgeSubstation>,
                            dist: (PalmettoHouse, PgeSubstation) -> real,
                            markers: MarkersRef, rendered: RenderedRef)
    modifies markers, rendered
    ensures var added := Pass(houses, Plottable, HouseKey, old(rendered.current), map[]);
      && rendered.current == old(rendered.current) + added.Keys
      && markers.current.Keys == old(markers.current).Keys + added.Keys
      && (forall k :: k in old(markers.current) && k !in added ==> markers.current[k] == old(markers.current)[k])
      && (forall k :: k in added ==>
            fresh(markers.current[k]) && ShowsHouse(markers.current[k], added[k], subs, dist))
  {
    ghost var done := rendered.current;
    ghost var before := markers.current;
    ghost var added: map<string, PalmettoHouse> := map[];
    ghost var made: map<string, Marker> := map[];
    for i := 0 to |houses|
      invariant Pass(houses[i..], Plottable, HouseKey, done, added)
             == Pass(houses, Plottable, HouseKey, done, map[])
      invariant rendered.current == done + added.Keys
      invariant markers.current == before + made
      invariant made.Keys == added.Keys
      invariant forall k :: k in made ==> fresh(made[k])
      invariant forall k :: k in made ==> ShowsHouse(made[k], added[k], subs, dist)
    {
      assert houses[i..][1..] == houses[i + 1..];
      PassStep(houses[i..], Plottable, HouseKey, done, added);
      var h := houses[i];
      var key := HouseKey(h);
      if PlottableInline(h.longitude, h.latitude) && key !in rendered.current {
        var m := NewHouseMarker(h, subs, dist);
        RegisterMarker(markers, rendered, key, m, before, made);
        added := added[key := h];
        made := made[key := m];
      }
    }
  }
}
