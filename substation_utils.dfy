/** The nearest-substation search used by the house popups (src/components/map/utils/substationUtils.ts). */
module SubstationUtils {
  import opened Js
  import opened Types

  /** A substation whose latitude and longitude are both truthy takes part in the search. */
  predicate Candidate(s: PgeSubstation) {
    !Falsy(s.latitude) && !Falsy(s.longitude)
  }

  /**
   * `subs[i]` is the nearest candidate under `dist` and no earlier candidate
   * is as near: ties go to the first one, because the loop only replaces its
   * choice on a strictly smaller distance.
   */
  ghost predicate FirstNearestAt(house: PalmettoHouse, subs: seq<PgeSubstation>,
                                 dist: (PalmettoHouse, PgeSubstation) -> real, i: int) {
    0 <= i < |subs| && Candidate(subs[i])
    && (forall j :: 0 <= j < |subs| && Candidate(subs[j]) ==> dist(house, subs[i]) <= dist(house, subs[j]))
    && (forall j :: 0 <= j < i && Candidate(subs[j]) ==> dist(house, subs[i]) < dist(house, subs[j]))
  }

  /** What the search may return: nothing exactly when there is no candidate, else the first nearest one. */
  ghost predicate NearestChoice(house: PalmettoHouse, subs: seq<PgeSubstation>,
                                dist: (PalmettoHouse, PgeSubstation) -> real, r: Option<PgeSubstation>) {
    (r == None <==> forall j :: 0 <= j < |subs| ==> !Candidate(subs[j]))
    && (r.Some? ==> exists i :: FirstNearestAt(house, subs, dist, i) && r.value == subs[i])
  }

  /** At most one index is the first nearest one. */
  lemma FirstNearestUnique(house: PalmettoHouse, subs: seq<PgeSubstation>,
                           dist: (PalmettoHouse, PgeSubstation) -> real, i: int, k: int)
    requires FirstNearestAt(house, subs, dist, i) && FirstNearestAt(house, subs, dist, k)
    ensures i == k
  {
  }

  /** The search result is determined by its inputs: two acceptable answers are equal. */
  lemma NearestChoiceDeterministic(house: PalmettoHouse, subs: seq<PgeSubstation>,
                                   dist: (PalmettoHouse, PgeSubstation) -> real,
                                   r1: Option<PgeSubstation>, r2: Option<PgeSubstation>)
    requires NearestChoice(house, subs, dist, r1) && NearestChoice(house, subs, dist, r2)
    ensures r1 == r2
  {
    if r1.Some? && r2.Some? {
      var i :| FirstNearestAt(house, subs, dist, i) && r1.value == subs[i];
      var k :| FirstNearestAt(house, subs, dist, k) && r2.value == subs[k];
      FirstNearestUnique(house, subs, dist, i, k);
    }
  }

  /**
   * `findNearestSubstation`: a linear scan from an infinite minimum that
   * skips every substation with a falsy coordinate. `dist` stands for the
   * great-circle distance.
   */
  method FindNearestSubstation(house: PalmettoHouse, subs: seq<PgeSubstation>,
                               dist: (PalmettoHouse, PgeSubstation) -> real)
    returns (r: Option<PgeSubstation>)
    ensures NearestChoice(house, subs, dist, r)
  {
    if |subs| == 0 {
      return None;
    }
    r := None;
    var minDistance: real := 0.0;  // meaningful once `r` is set; stands for Infinity before
    ghost var at := -1;
    for i := 0 to |subs|
      invariant r == None <==> forall j :: 0 <= j < i ==> !Candidate(subs[j])
      invariant r.Some? ==> 0 <= at < i && r.value == subs[at] && Candidate(subs[at])
                            && minDistance == dist(house, subs[at])
      invariant r.Some? ==> forall j :: 0 <= j < i && Candidate(subs[j]) ==> minDistance <= dist(house, subs[j])
      invariant r.Some? ==> forall j :: 0 <= j < at && Candidate(subs[j]) ==> minDistance < dist(house, subs[j])
    {
      var s := subs[i];
      if Falsy(s.latitude) || Falsy(s.longitude) {
        continue;
      }
      var d := dist(house, s);
      if r == None || d < minDistance {
        minDistance := d;
        r := Some(s);
        at := i;
      }
    }
    if r.Some? {
      assert FirstNearestAt(house, subs, dist, at);
    }
  }
}
