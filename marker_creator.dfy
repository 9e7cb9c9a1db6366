/**
 * The DOM element, popup text and guarded creation of one asset marker
 * (src/components/map/components/MarkerCreator.tsx).
 */
module MarkerCreator {
  import opened Js
  import opened Types
  import opened MapSurface
  import opened MapUtils

  /** A class name of the `risk-` family. */
  predicate IsRiskClass(c: string) {
    |c| >= 5 && c[..5] == "risk-"
  }

  /** The one risk class of a marker: the score's band, and `risk-low` for an undefined score. */
  function RiskClass(score: Option<real>): string {
    if score.None? then "risk-low" else "risk-" + LevelName(RiskBand(score.value))
  }

  /** The risk class is of the `risk-` family and names the score's band. */
  lemma RiskClassBands(score: Option<real>)
    ensures IsRiskClass(RiskClass(score))
    ensures RiskClass(score) == "risk-critical" <==> score.Some? && score.value >= 0.8
    ensures RiskClass(score) == "risk-high" <==> score.Some? && 0.6 <= score.value < 0.8
    ensures RiskClass(score) == "risk-medium" <==> score.Some? && 0.3 <= score.value < 0.6
    ensures RiskClass(score) == "risk-low" <==> score.None? || score.value < 0.3
  {
    assert RiskClass(score)[..5] == "risk-";
  }

  /**
   * The capacity ring's classes, for the two capacity types only. The grid
   * capacity level wins; the score band is used only when the score is
   * truthy, so a score of exactly 0 leaves the ring without a constraint class.
   */
  function CapacityRing(a: Asset): Option<seq<string>> {
    if !IsCapacityType(a.assetType) then None
    else if a.gridCapacity.Some? then
      Some(["capacity-ring", "constraint-" + LevelName(a.gridCapacity.value.constraintLevel)])
    else if !FalsyReal(a.riskScore) then
      Some(["capacity-ring", "constraint-" + LevelName(RiskBand(a.riskScore.value))])
    else Some(["capacity-ring"])
  }

  /** The ring exists exactly for the capacity types and holds at most one constraint class. */
  lemma CapacityRingShape(a: Asset)
    ensures var ring := CapacityRing(a);
      (ring.Some? <==> IsCapacityType(a.assetType))
      && (ring.Some? ==> |ring.value| >= 1 && ring.value[0] == "capacity-ring")
      && (ring.Some? && a.gridCapacity.Some? ==>
            ring.value == ["capacity-ring", "constraint-" + LevelName(a.gridCapacity.value.constraintLevel)])
      && (ring.Some? && a.gridCapacity.None? && !FalsyReal(a.riskScore) ==>
            ring.value == ["capacity-ring", "constraint-" + LevelName(RiskBand(a.riskScore.value))])
      && (ring.Some? && a.gridCapacity.None? && FalsyReal(a.riskScore) ==> ring.value == ["capacity-ring"])
  {
  }

  /**
   * `createMarkerElement`: the base class and the type class come first,
   * then the capacity indicator for the capacity types, then exactly one
   * risk class, last.
   */
  function CreateMarkerElement(a: Asset): Element {
    var indicator := if IsCapacityType(a.assetType) then ["has-capacity-indicator"] else [];
    Element(["react-map-marker", "asset-" + TypeName(a.assetType)] + indicator + [RiskClass(a.riskScore)],
            CapacityRing(a), map[])
  }

  /**
   * The element's classes: the base class and the type class first, then the
   * capacity indicator for the capacity types only, then exactly one risk
   * class, last.
   */
  lemma CreateMarkerElementClasses(a: Asset)
    ensures var e := CreateMarkerElement(a);
      |e.classes| >= 3
      && e.classes[0] == "react-map-marker" && e.classes[1] == "asset-" + TypeName(a.assetType)
      && ("has-capacity-indicator" in e.classes <==> IsCapacityType(a.assetType))
      && e.classes[|e.classes| - 1] == RiskClass(a.riskScore)
      && (forall i :: 0 <= i < |e.classes| - 1 ==> !IsRiskClass(e.classes[i]))
      && e.ring == CapacityRing(a) && e.dataset == map[]
  {
    RiskClassBands(a.riskScore);
    NonRiskClasses(TypeName(a.assetType));
    var typeClass := "asset-" + TypeName(a.assetType);
    var indicator := if IsCapacityType(a.assetType) then ["has-capacity-indicator"] else [];
    var front := ["react-map-marker", typeClass] + indicator;
    var cs := CreateMarkerElement(a).classes;
    assert cs == front + [RiskClass(a.riskScore)];
    assert forall i :: 0 <= i < |cs| - 1 ==> cs[i] == front[i];
    assert forall c :: c in front ==> !IsRiskClass(c);
  }

  /** None of the classes before the risk class is of the `risk-` family. */
  lemma NonRiskClasses(typeName: string)
    ensures !IsRiskClass("react-map-marker") && !IsRiskClass("has-capacity-indicator")
    ensures !IsRiskClass("asset-" + typeName)
  {
    assert "react-map-marker"[1] == 'e';
    assert "has-capacity-indicator"[0] == 'h';
    assert ("asset-" + typeName)[0] == 'a';
  }

  /** The first line of the popup: the capitalised type and the id in parentheses. */
  function PopupHeader(a: Asset): string {
    Capitalize(TypeName(a.assetType)) + " (" + a.id + ")"
  }

  /** `createMarkerPopup`: the header, then the capacity line when the asset has grid capacity data. */
  function CreateMarkerPopup(a: Asset): string {
    if a.gridCapacity.Some? then
      var g := a.gridCapacity.value;
      PopupHeader(a) + CapacityLine(g)
    else
      PopupHeader(a)
  }

  function CapacityLine(g: GridCapacity): string {
    "\nCapacity: " + IntToString(g.capacityPercentage) + "% (" + LevelName(g.constraintLevel) + ")"
  }

  /**
   * The popup text starts with the header, whose first letter is the
   * capitalised type, and has a second line beginning `Capacity: `
   * exactly when the asset has grid capacity data.
   */
  lemma CreateMarkerPopupLayout(a: Asset)
    ensures |CreateMarkerPopup(a)| >= |PopupHeader(a)| && CreateMarkerPopup(a)[..|PopupHeader(a)|] == PopupHeader(a)
    ensures CreateMarkerPopup(a)[0] == UpperChar(TypeName(a.assetType)[0])
    ensures a.gridCapacity.None? ==> CreateMarkerPopup(a) == PopupHeader(a)
    ensures a.gridCapacity.Some? ==>
      |CreateMarkerPopup(a)| > |PopupHeader(a)| + 11
      && CreateMarkerPopup(a)[|PopupHeader(a)|..|PopupHeader(a)| + 11] == "\nCapacity: "
  {
    var header := PopupHeader(a);
    assert header[0] == Capitalize(TypeName(a.assetType))[0];
    if a.gridCapacity.Some? {
      var line := CapacityLine(a.gridCapacity.value);
      assert line[..11] == "\nCapacity: ";
      assert (header + line)[|header|..|header| + 11] == line[..11];
    }
  }

  /** What a marker created for asset `a` shows. */
  predicate ShowsAsset(m: Marker, a: Asset) {
    a.longitude.Fin? && a.latitude.Fin?
    && m.element == CreateMarkerElement(a)
    && m.popup == AssetPopup(a.assetType, a.id, a.gridCapacity)
    && m.position == LngLat(a.longitude.v, a.latitude.v)
    && m.selects == Some(a.id)
  }

  /**
   * `createMapMarker`: no marker for a zero, NaN or out-of-range coordinate,
   * nor when the map SDK throws (`sdkThrows`); otherwise a new attached and
   * visible marker that selects the asset on click.
   */
  method CreateMapMarker(a: Asset, sdkThrows: bool) returns (m: Marker?)
    ensures m == null <==> !PlottableInline(a.longitude, a.latitude) || sdkThrows
    ensures m != null ==> fresh(m) && ShowsAsset(m, a) && m.visible && m.attached
  {
    if !PlottableInline(a.longitude, a.latitude) {
      return null;
    }
    if sdkThrows {
      return null;
    }
    var el := CreateMarkerElement(a);
    var popup := AssetPopup(a.assetType, a.id, a.gridCapacity);
    m := new Marker(el, popup, LngLat(a.longitude.v, a.latitude.v), Some(a.id));
  }
}
