/** The PG&E substation marker pass (src/components/map/components/SubstationMarkers.tsx). */
module SubstationMarkers {
  import opened Js
  import opened Types
  import opened MapSurface
  import opened MapUtils
  import opened MarkerPass
  import MapMarkers
  import HouseMarkers

  /** The substation name with whitespace runs turned into '-' and lower-cased; "" without a name. */
  function Slug(s: PgeSubstation): string {
    match s.substationName
    case None => ""
    case Some(n) => Lower(ReplaceSpaceRuns(n))
  }

  /**
   * The marker key: the slug of the name, or the object id when the slug is
   * empty (no name, or the empty name).
   */
  function SubstationKey(s: PgeSubstation): string {
    "pge-substation-" + (if Slug(s) != "" then Slug(s) else NatToString(s.objectid))
  }

  /** A key is the fixed prefix followed by a suffix without whitespace. */
  lemma SubstationKeyShape(s: PgeSubstation)
    ensures |SubstationKey(s)| > 15 && SubstationKey(s)[..15] == "pge-substation-"
    ensures NoSpaces(SubstationKey(s)[15..])
    ensures SubstationKey(s)[15..] == if Slug(s) != "" then Slug(s) else NatToString(s.objectid)
  {
    var k := SubstationKey(s);
    assert k[15..] == if Slug(s) != "" then Slug(s) else NatToString(s.objectid);
  }

  /** The heading of the popup: the name when it is a non-empty string. */
  function PopupTitle(s: PgeSubstation): string {
    match s.substationName
    case Some(n) => if n != "" then n else "PG&E Substation"
    case None => "PG&E Substation"
  }

  /** The eligibility test of the pass: `isValidCoordinate`, which accepts 0. */
  predicate Plottable(s: PgeSubstation) {
    IsValidCoordinate(s.longitude, s.latitude)
  }

  /** The marker element: class `substation-marker`, the object id in its data set. */
  function SubstationElement(s: PgeSubstation): Element {
    Element(["substation-marker"], None, map["substationId" := NatToString(s.objectid)])
  }

  /** What the marker of substation `s` shows. */
  predicate ShowsSubstation(m: Marker, s: PgeSubstation) {
    s.longitude.Fin? && s.latitude.Fin?
    && m.element == SubstationElement(s)
    && m.position == LngLat(s.longitude.v, s.latitude.v)
    && m.popup == SubstationPopup(PopupTitle(s))
    && m.selects == None
  }

  /** The marker of one substation, built as the loop body builds it. */
  method NewSubstationMarker(s: PgeSubstation) returns (m: Marker)
    requires IsValidCoordinate(s.longitude, s.latitude)
    ensures fresh(m) && m.attached && m.visible && ShowsSubstation(m, s)
  {
    m := new Marker(SubstationElement(s), SubstationPopup(PopupTitle(s)), LngLat(s.longitude.v, s.latitude.v), None);
  }

  /**
   * The pass: an empty list does nothing; otherwise every substation with
   * valid coordinates (zero allowed) whose key is not yet rendered gets a
   * marker. The markers added are those of `Pass`, which keeps the first
   * substation of each key and skips the keys already rendered; the lemmas
   * of `MarkerPass` say which keys and which substations these are.
   */
  method RenderSubstationMarkers(subs: seq<PgeSubstation>, markers: MarkersRef, rendered: RenderedRef)
    modifies markers, rendered
    ensures var added := Pass(subs, Plottable, SubstationKey, old(rendered.current), map[]);
      && rendered.current == old(rendered.current) + added.Keys
      && markers.current.Keys == old(markers.current).Keys + added.Keys
      && (forall k :: k in old(markers.current) && k !in added ==> markers.current[k] == old(markers.current)[k])
      && (forall k :: k in added ==>
            fresh(markers.current[k]) && ShowsSubstation(markers.current[k], added[k]))
  {
    if |subs| == 0 {
      return;
    }
    ghost var done := rendered.current;
    ghost var before := markers.current;
    ghost var added: map<string, PgeSubstation> := map[];
    ghost var made: map<string, Marker> := map[];
    for i := 0 to |subs|
      invariant Pass(subs[i..], Plottable, SubstationKey, done, added)
             == Pass(subs, Plottable, SubstationKey, done, map[])
      invariant rendered.current == done + added.Keys
      invariant markers.current == before + made
      invariant made.Keys == added.Keys
      invariant forall k :: k in made ==> fresh(made[k])
      invariant forall k :: k in made ==> ShowsSubstation(made[k], added[k])
    {
      assert subs[i..][1..] == subs[i + 1..];
      PassStep(subs[i..], Plottable, SubstationKey, done, added);
      var s := subs[i];
      var key := SubstationKey(s);
      if IsValidCoordinate(s.longitude, s.latitude) && key !in rendered.current {
        var m := NewSubstationMarker(s);
        RegisterMarker(markers, rendered, key, m, before, made);
        added := added[key := s];
        made := made[key := m];
      }
    }
  }

  /**
   * Two substations whose two-word names differ only in the case of their
   * ASCII letters and in the whitespace between the words share one key, so
   * only the first of them gets a marker.
   */
  lemma NamesDifferingInCaseAndSpacingCollide(s1: PgeSubstation, s2: PgeSubstation,
                                              w: string, rest: string, sp1: string, sp2: string)
    requires NoSpaces(w) && NoSpaces(rest) && rest != []
    requires sp1 != [] && forall i :: 0 <= i < |sp1| ==> IsSpace(sp1[i])
    requires sp2 != [] && forall i :: 0 <= i < |sp2| ==> IsSpace(sp2[i])
    requires s1.substationName == Some(w + sp1 + rest)
    requires s2.substationName == Some(Lower(w) + sp2 + Lower(rest))
    ensures SubstationKey(s1) == SubstationKey(s2)
  {
    SlugOfTwoWords(w, sp1, rest);
    SlugOfTwoWords(Lower(w), sp2, Lower(rest));
    var d1, d2 := w + "-" + rest, Lower(w) + "-" + Lower(rest);
    assert Lower(d1) == Lower(d2) by {
      forall i | 0 <= i < |d1| ensures Lower(d1)[i] == Lower(d2)[i] {
        if i < |w| {
          assert d1[i] == w[i] && d2[i] == Lower(w)[i];
        } else if i == |w| {
          assert d1[i] == '-' && d2[i] == '-';
        } else {
          assert d1[i] == rest[i - |w| - 1] && d2[i] == Lower(rest)[i - |w| - 1];
        }
      }
    }
    assert Slug(s1) == Lower(d1) && Slug(s2) == Lower(d2);
  }

  /** Two words joined by a whitespace run are slugged as the words joined by '-'. */
  lemma SlugOfTwoWords(w: string, sp: string, rest: string)
    requires NoSpaces(w) && NoSpaces(rest) && rest != []
    requires sp != [] && forall i :: 0 <= i < |sp| ==> IsSpace(sp[i])
    ensures ReplaceSpaceRuns(w + sp + rest) == w + "-" + rest
  {
    ReplaceSpaceRunsNoSpaces(rest);
    SpaceRunSplits(w, sp, rest);
  }

  /** A run of whitespace between two words becomes one '-'. */
  lemma {:induction false} SpaceRunSplits(w: string, sp: string, rest: string)
    requires NoSpaces(w) && ReplaceSpaceRuns(rest) == rest
    requires sp != [] && forall i :: 0 <= i < |sp| ==> IsSpace(sp[i])
    requires rest != [] && !IsSpace(rest[0])
    ensures ReplaceSpaceRuns(w + sp + rest) == w + "-" + rest
    decreases |w|
  {
    var x := w + sp + rest;
    if w == [] {
      assert x == sp + rest;
      assert x[0] == sp[0];
      DropRun(sp, rest);
    } else {
      assert x[0] == w[0];
      assert x[1..] == w[1..] + sp + rest;
      assert NoSpaces(w[1..]) by {
        forall i | 0 <= i < |w[1..]| ensures !IsSpace(w[1..][i]) {
          assert w[1..][i] == w[i + 1];
        }
      }
      SpaceRunSplits(w[1..], sp, rest);
      assert w + "-" + rest == [w[0]] + (w[1..] + "-" + rest);
    }
  }

  /** `DropSpaces` removes exactly a leading run of whitespace. */
  lemma {:induction false} DropRun(sp: string, rest: string)
    requires forall i :: 0 <= i < |sp| ==> IsSpace(sp[i])
    requires rest == [] || !IsSpace(rest[0])
    ensures DropSpaces(sp + rest) == rest
    decreases |sp|
  {
    if sp != [] {
      assert (sp + rest)[1..] == sp[1..] + rest;
      DropRun(sp[1..], rest);
    }
  }

  /** A substation named with the decimal object id of an unnamed one shares its key. */
  lemma NumericNameCollidesWithObjectId(s1: PgeSubstation, s2: PgeSubstation)
    requires s1.substationName == Some(NatToString(s2.objectid)) && s2.substationName == None
    ensures SubstationKey(s1) == SubstationKey(s2)
  {
    var n := NatToString(s2.objectid);
    ReplaceSpaceRunsNoSpaces(n);
    assert Lower(n) == n;
  }

  /**
   * The three marker passes share one pair of dictionaries; their key
   * prefixes keep an asset, a house and a substation from ever sharing a key.
   */
  lemma KeysOfTheThreePassesAreDisjoint(a: Asset, h: PalmettoHouse, s: PgeSubstation)
    ensures MapMarkers.AssetKey(a) != HouseMarkers.HouseKey(h)
    ensures MapMarkers.AssetKey(a) != SubstationKey(s)
    ensures HouseMarkers.HouseKey(h) != SubstationKey(s)
  {
    assert MapMarkers.AssetKey(a)[0] == 'a';
    assert HouseMarkers.HouseKey(h)[0] == 'p' && HouseMarkers.HouseKey(h)[1] == 'a';
    SubstationKeyShape(s);
    assert SubstationKey(s)[..15][1] == 'g';
  }
}
