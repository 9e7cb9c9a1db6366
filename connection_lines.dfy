/**
 * The connection line layer (src/components/map/components/ConnectionLines.tsx):
 * it removes the layers it drew last time, then draws one line per
 * connection whose house and substation are both known.
 */
module ConnectionLines {
  import opened Js
  import opened Types
  import opened MapSurface

  /**
   * `xs.find(x => key(x) === id)`: the first element whose key is the id,
   * used for the houses and for the substations.
   */
  function FindById<T>(xs: seq<T>, key: T -> string, id: string): (r: Option<T>)
    ensures r.Some? <==> exists i :: 0 <= i < |xs| && key(xs[i]) == id
    ensures r.Some? ==> r.value in xs && key(r.value) == id
    ensures r.Some? ==> exists i :: 0 <= i < |xs| && xs[i] == r.value && forall j :: 0 <= j < i ==> key(xs[j]) != id
  {
    if xs == [] then None
    else if key(xs[0]) == id then Some(xs[0])
    else
      var r := FindById(xs[1..], key, id);
      assert r.Some? ==> exists i :: 1 <= i < |xs| && xs[i] == r.value && forall j :: 0 <= j < i ==> key(xs[j]) != id by {
        if r.Some? {
          var i :| 0 <= i < |xs[1..]| && xs[1..][i] == r.value && forall j :: 0 <= j < i ==> key(xs[1..][j]) != id;
          assert xs[i + 1] == r.value;
          assert forall j :: 0 <= j < i + 1 ==> key(xs[j]) != id by {
            forall j | 0 <= j < i + 1 ensures key(xs[j]) != id {
              if j > 0 { assert xs[j] == xs[1..][j - 1]; }
            }
          }
        }
      }
      r
  }

  function HouseKey(h: PalmettoHouse): string { h.id }

  function RowKey(s: SubstationRow): string { s.id }

  /** A connection is drawn when both its house and its substation are found. */
  predicate Linked(c: HouseConnection, houses: seq<PalmettoHouse>, subs: seq<SubstationRow>) {
    FindById(houses, HouseKey, c.houseId).Some? && FindById(subs, RowKey, c.substationId).Some?
  }

  function LayerId(c: HouseConnection): string {
    "connection-" + c.id
  }

  /**
   * The ids pushed onto the layer list, in order: one per linked
   * connection, pushed before the map calls, so whether or not they fail.
   */
  function ConnectionLayerIds(cs: seq<HouseConnection>, houses: seq<PalmettoHouse>, subs: seq<SubstationRow>)
    : seq<string>
    decreases |cs|
  {
    if cs == [] then []
    else
      var rest := ConnectionLayerIds(cs[1..], houses, subs);
      if Linked(cs[0], houses, subs) then [LayerId(cs[0])] + rest else rest
  }

  /** The list holds exactly the layer ids of the linked connections, at most one per connection. */
  lemma {:induction false} ConnectionLayerIdsMembers(cs: seq<HouseConnection>, houses: seq<PalmettoHouse>,
                                                     subs: seq<SubstationRow>)
    ensures |ConnectionLayerIds(cs, houses, subs)| <= |cs|
    ensures forall id :: id in ConnectionLayerIds(cs, houses, subs) <==>
      exists c :: c in cs && Linked(c, houses, subs) && LayerId(c) == id
    decreases |cs|
  {
    if cs != [] {
      ConnectionLayerIdsMembers(cs[1..], houses, subs);
      assert forall c :: c in cs <==> c == cs[0] || c in cs[1..];
    }
  }

  /**
   * The paint of a line to substation `sid`: blue, wider and nearly opaque
   * when that substation is highlighted; grey otherwise, faint while some
   * other substation is highlighted and half-transparent when none is.
   */
  function LinePaintFor(highlighted: Option<string>, sid: string): (p: LinePaint)
    ensures p.width == 3 <==> highlighted == Some(sid)
    ensures p.color == "#3b82f6" <==> highlighted == Some(sid)
    ensures p.opacity == 0.9 <==> highlighted == Some(sid)
    ensures p.opacity == 0.2 <==> highlighted != Some(sid) && !FalsyString(highlighted)
    ensures p.opacity == 0.6 <==> highlighted != Some(sid) && FalsyString(highlighted)
  {
    if highlighted == Some(sid) then LinePaint("#3b82f6", 3, 0.9)
    else LinePaint("#888", 2, if !FalsyString(highlighted) then 0.2 else 0.6)
  }

  /** The line layers and the sources of a map. */
  datatype Canvas = Canvas(layers: map<string, LinePaint>, sources: set<string>)

  function ElementsOf(ids: seq<string>): set<string> {
    set id | id in ids
  }

  /** The clearing loop: with a style, the listed layers and sources are gone. */
  function Cleared(cv: Canvas, ids: seq<string>, hasStyle: bool): Canvas {
    if hasStyle then Canvas(cv.layers - ElementsOf(ids), cv.sources - ElementsOf(ids)) else cv
  }

  /**
   * The drawing loop on the map's layers and sources. For each linked
   * connection the source is added and then the layer; `sourceThrows` and
   * `layerThrows` say which calls the map library rejects, and a rejected
   * call ends the attempt for that connection.
   */
  function Draw(cs: seq<HouseConnection>, houses: seq<PalmettoHouse>, subs: seq<SubstationRow>,
                highlighted: Option<string>, sourceThrows: string -> bool, layerThrows: string -> bool,
                cv: Canvas): Canvas
    decreases |cs|
  {
    if cs == [] then cv
    else
      var c := cs[0];
      var id := LayerId(c);
      var next :=
        if !Linked(c, houses, subs) || sourceThrows(id) then cv
        else if layerThrows(id) then cv.(sources := cv.sources + {id})
        else Canvas(cv.layers[id := LinePaintFor(highlighted, c.substationId)], cv.sources + {id});
      Draw(cs[1..], houses, subs, highlighted, sourceThrows, layerThrows, next)
  }

  /** Every layer drawn has its source: drawing keeps that invariant of the canvas. */
  lemma {:induction false} DrawKeepsLayersSourced(cs: seq<HouseConnection>, houses: seq<PalmettoHouse>,
                                                  subs: seq<SubstationRow>, highlighted: Option<string>,
                                                  sourceThrows: string -> bool, layerThrows: string -> bool, cv: Canvas)
    requires cv.layers.Keys <= cv.sources
    ensures var r := Draw(cs, houses, subs, highlighted, sourceThrows, layerThrows, cv); r.layers.Keys <= r.sources
    decreases |cs|
  {
    if cs != [] {
      var c := cs[0];
      var id := LayerId(c);
      var next :=
        if !Linked(c, houses, subs) || sourceThrows(id) then cv
        else if layerThrows(id) then cv.(sources := cv.sources + {id})
        else Canvas(cv.layers[id := LinePaintFor(highlighted, c.substationId)], cv.sources + {id});
      DrawKeepsLayersSourced(cs[1..], houses, subs, highlighted, sourceThrows, layerThrows, next);
    }
  }

  /**
   * A layer that was not on the canvas before belongs to a linked
   * connection of the list and is painted for that connection's substation.
   */
  lemma {:induction false} DrawnLayersComeFromConnections(cs: seq<HouseConnection>, houses: seq<PalmettoHouse>,
                                                          subs: seq<SubstationRow>, highlighted: Option<string>,
                                                          sourceThrows: string -> bool, layerThrows: string -> bool,
                                                          cv: Canvas)
    ensures var r := Draw(cs, houses, subs, highlighted, sourceThrows, layerThrows, cv);
      forall id :: id in r.layers ==>
        (id in cv.layers && r.layers[id] == cv.layers[id])
        || exists c :: c in cs && Linked(c, houses, subs) && LayerId(c) == id
                       && r.layers[id] == LinePaintFor(highlighted, c.substationId)
    decreases |cs|
  {
    if cs != [] {
      var c := cs[0];
      var id := LayerId(c);
      var next :=
        if !Linked(c, houses, subs) || sourceThrows(id) then cv
        else if layerThrows(id) then cv.(sources := cv.sources + {id})
        else Canvas(cv.layers[id := LinePaintFor(highlighted, c.substationId)], cv.sources + {id});
      DrawnLayersComeFromConnections(cs[1..], houses, subs, highlighted, sourceThrows, layerThrows, next);
      assert forall x :: x in cs[1..] ==> x in cs;
    }
  }

  /** When the map library accepts every call, each pushed id is a layer on the map. */
  lemma {:induction false} DrawWithoutErrorsShowsEveryLine(cs: seq<HouseConnection>, houses: seq<PalmettoHouse>,
                                                           subs: seq<SubstationRow>, highlighted: Option<string>,
                                                           sourceThrows: string -> bool, layerThrows: string -> bool,
                                                           cv: Canvas)
    requires forall c :: c in cs ==> !sourceThrows(LayerId(c)) && !layerThrows(LayerId(c))
    ensures Draw(cs, houses, subs, highlighted, sourceThrows, layerThrows, cv).layers.Keys
         == cv.layers.Keys + ElementsOf(ConnectionLayerIds(cs, houses, subs))
    decreases |cs|
  {
    if cs != [] {
      var c := cs[0];
      var id := LayerId(c);
      var next :=
        if !Linked(c, houses, subs) then cv
        else Canvas(cv.layers[id := LinePaintFor(highlighted, c.substationId)], cv.sources + {id});
      DrawWithoutErrorsShowsEveryLine(cs[1..], houses, subs, highlighted, sourceThrows, layerThrows, next);
      var rest := ConnectionLayerIds(cs[1..], houses, subs);
      if Linked(c, houses, subs) {
        assert ElementsOf([id] + rest) == {id} + ElementsOf(rest);
      }
    }
  }

  /**
   * The guarded removal of the listed layers and sources, one id at a time;
   * errors are caught. Also used by the marker clean-up on unmount.
   */
  method RemoveConnectionLayers(view: MapView, ids: seq<string>)
    modifies view
    ensures Canvas(view.layers, view.sources) == Cleared(Canvas(old(view.layers), old(view.sources)), ids, view.hasStyle)
    ensures view.removed == old(view.removed) && view.hasStyle == old(view.hasStyle)
  {
    for i := 0 to |ids|
      invariant view.removed == old(view.removed) && view.hasStyle == old(view.hasStyle)
      invariant Canvas(view.layers, view.sources) == Cleared(Canvas(old(view.layers), old(view.sources)), ids[..i], view.hasStyle)
    {
      assert ElementsOf(ids[..i + 1]) == ElementsOf(ids[..i]) + {ids[i]} by {
        assert ids[..i + 1] == ids[..i] + [ids[i]];
      }
      view.RemoveLayerAndSource(ids[i]);
    }
    assert ids[..|ids|] == ids;
  }

  /**
   * The effect: remove the layers of the previous run, empty the list, then
   * push and draw a line for each linked connection. The list ends up as
   * `ConnectionLayerIds` whatever the map library rejects, and the canvas
   * as `Draw` applied to the cleared canvas.
   */
  method DrawConnections(view: MapView, layerIds: LayerIdsRef, connections: seq<HouseConnection>,
                         houses: seq<PalmettoHouse>, subs: seq<SubstationRow>, highlighted: Option<string>,
                         sourceThrows: string -> bool, layerThrows: string -> bool)
    modifies view, layerIds
    ensures layerIds.current == ConnectionLayerIds(connections, houses, subs)
    ensures Canvas(view.layers, view.sources)
         == Draw(connections, houses, subs, highlighted, sourceThrows, layerThrows,
                 Cleared(Canvas(old(view.layers), old(view.sources)), old(layerIds.current), view.hasStyle))
    ensures view.removed == old(view.removed) && view.hasStyle == old(view.hasStyle)
  {
    RemoveConnectionLayers(view, layerIds.current);
    ghost var start := Canvas(view.layers, view.sources);
    layerIds.current := [];
    for i := 0 to |connections|
      invariant view.removed == old(view.removed) && view.hasStyle == old(view.hasStyle)
      invariant layerIds.current + ConnectionLayerIds(connections[i..], houses, subs)
             == ConnectionLayerIds(connections, houses, subs)
      invariant Draw(connections[i..], houses, subs, highlighted, sourceThrows, layerThrows, Canvas(view.layers, view.sources))
             == Draw(connections, houses, subs, highlighted, sourceThrows, layerThrows, start)
    {
      assert connections[i..][1..] == connections[i + 1..];
      var c := connections[i];
      var house := FindById(houses, HouseKey, c.houseId);
      var substation := FindById(subs, RowKey, c.substationId);
      if house.Some? && substation.Some? {
        var id := LayerId(c);
        assert layerIds.current + [id] + ConnectionLayerIds(connections[i + 1..], houses, subs)
            == layerIds.current + ([id] + ConnectionLayerIds(connections[i + 1..], houses, subs));
        layerIds.current := layerIds.current + [id];
        var ok := view.AddSource(id, sourceThrows(id));
        if ok {
          ok := view.AddLayer(id, LinePaintFor(highlighted, substation.value.id), layerThrows(id));
        }
      }
    }
    assert connections[|connections|..] == [];
    assert layerIds.current + [] == layerIds.current;
  }
}
