/**
 * Assigning each house to its nearest substation within two miles
 * (src/services/palmettoConnections.ts). The distance is the parameter
 * `dist`; the `house_connections` table is a `ConnectionTable` whose upsert
 * outcome is the parameter `upsert` (`None` for an error, an exception or no
 * returned row).
 */
module PalmettoConnections {
  import opened Js
  import opened Types

  /** `MAX_DISTANCE`, in miles. */
  const MAX_DISTANCE: real := 2.0

  /** The substation picked for a house and the distance recorded with it. */
  datatype Choice = Choice(substation: SubstationRow, distance: real)

  /**
   * `subs[i]` is within the maximum distance, no substation within it is
   * nearer, and every earlier one within it is strictly farther: the first
   * minimum in substation order.
   */
  ghost predicate FirstNearestWithin(h: PalmettoHouse, subs: seq<SubstationRow>,
                                     dist: (PalmettoHouse, SubstationRow) -> real, i: int) {
    0 <= i < |subs| && dist(h, subs[i]) <= MAX_DISTANCE
    && (forall j :: 0 <= j < |subs| && dist(h, subs[j]) <= MAX_DISTANCE ==> dist(h, subs[i]) <= dist(h, subs[j]))
    && (forall j :: 0 <= j < i && dist(h, subs[j]) <= MAX_DISTANCE ==> dist(h, subs[i]) < dist(h, subs[j]))
  }

  /**
   * The inner loop over the substations, as a scan of `subs` from the left:
   * a substation replaces the current choice iff it is strictly nearer and
   * within the maximum distance. The starting minimum `Number.MAX_VALUE`
   * exceeds every distance that passes the second test, so it is absent here.
   */
  function Nearest(h: PalmettoHouse, subs: seq<SubstationRow>,
                   dist: (PalmettoHouse, SubstationRow) -> real): Option<Choice>
    decreases |subs|
  {
    if subs == [] then None
    else
      var prev := Nearest(h, subs[..|subs| - 1], dist);
      var s := subs[|subs| - 1];
      var d := dist(h, s);
      if (prev.None? || d < prev.value.distance) && d <= MAX_DISTANCE then Some(Choice(s, d)) else prev
  }

  /**
   * The scan finds nothing iff no substation is within the maximum
   * distance; otherwise it finds the first nearest one within it, with its
   * distance.
   */
  lemma {:induction false} NearestIsFirstNearestWithin(h: PalmettoHouse, subs: seq<SubstationRow>,
                                                      dist: (PalmettoHouse, SubstationRow) -> real)
    ensures Nearest(h, subs, dist).None? <==> forall j :: 0 <= j < |subs| ==> dist(h, subs[j]) > MAX_DISTANCE
    ensures Nearest(h, subs, dist).Some? ==>
      exists i :: FirstNearestWithin(h, subs, dist, i)
                  && Nearest(h, subs, dist).value == Choice(subs[i], dist(h, subs[i]))
    decreases |subs|
  {
    if subs != [] {
      var front := subs[..|subs| - 1];
      NearestIsFirstNearestWithin(h, front, dist);
      assert forall j :: 0 <= j < |front| ==> front[j] == subs[j];
      var n := |subs| - 1;
      var prev := Nearest(h, front, dist);
      var d := dist(h, subs[n]);
      if (prev.None? || d < prev.value.distance) && d <= MAX_DISTANCE {
        assert FirstNearestWithin(h, subs, dist, n);
      } else if prev.Some? {
        var i :| FirstNearestWithin(h, front, dist, i) && prev.value == Choice(front[i], dist(h, front[i]));
        assert FirstNearestWithin(h, subs, dist, i);
      }
    }
  }

  /** Every recorded distance is within the maximum distance. */
  lemma NearestWithinMax(h: PalmettoHouse, subs: seq<SubstationRow>, dist: (PalmettoHouse, SubstationRow) -> real)
    ensures Nearest(h, subs, dist).Some? ==> Nearest(h, subs, dist).value.distance <= MAX_DISTANCE
  {
    NearestIsFirstNearestWithin(h, subs, dist);
  }

  /** What one house adds to the result: at most one stored connection. */
  function HouseConnections(h: PalmettoHouse, subs: seq<SubstationRow>,
                            dist: (PalmettoHouse, SubstationRow) -> real,
                            upsert: (PalmettoHouse, SubstationRow, real) -> Option<HouseConnection>): seq<HouseConnection>
  {
    var c := Nearest(h, subs, dist);
    if c.Some? && upsert(h, c.value.substation, c.value.distance).Some? then
      [upsert(h, c.value.substation, c.value.distance).value]
    else []
  }

  /** The returned list: the stored connections of the houses, in house order. */
  function Assigned(houses: seq<PalmettoHouse>, subs: seq<SubstationRow>,
                    dist: (PalmettoHouse, SubstationRow) -> real,
                    upsert: (PalmettoHouse, SubstationRow, real) -> Option<HouseConnection>): seq<HouseConnection>
    decreases |houses|
  {
    if houses == [] then []
    else Assigned(houses[..|houses| - 1], subs, dist, upsert)
         + HouseConnections(houses[|houses| - 1], subs, dist, upsert)
  }

  /**
   * At most one connection per house, and each returned connection is the
   * stored row of the upsert for some house, made with that house's
   * nearest substation within the maximum distance and its distance. A
   * house with no substation within reach therefore contributes nothing.
   */
  lemma {:induction false} AssignedComesFromNearest(houses: seq<PalmettoHouse>, subs: seq<SubstationRow>,
                                                   dist: (PalmettoHouse, SubstationRow) -> real,
                                                   upsert: (PalmettoHouse, SubstationRow, real) -> Option<HouseConnection>)
    ensures |Assigned(houses, subs, dist, upsert)| <= |houses|
    ensures forall c :: c in Assigned(houses, subs, dist, upsert) ==>
      exists i :: 0 <= i < |houses| && Nearest(houses[i], subs, dist).Some?
        && upsert(houses[i], Nearest(houses[i], subs, dist).value.substation,
                  Nearest(houses[i], subs, dist).value.distance) == Some(c)
    decreases |houses|
  {
    if houses != [] {
      var front := houses[..|houses| - 1];
      AssignedComesFromNearest(front, subs, dist, upsert);
      assert forall j :: 0 <= j < |front| ==> front[j] == houses[j];
    }
  }

  /** With no substation within reach of any house, nothing is returned. */
  lemma {:induction false} NoneWithinReachAssignsNothing(houses: seq<PalmettoHouse>, subs: seq<SubstationRow>,
                                                        dist: (PalmettoHouse, SubstationRow) -> real,
                                                        upsert: (PalmettoHouse, SubstationRow, real) -> Option<HouseConnection>)
    requires forall i, j :: 0 <= i < |houses| && 0 <= j < |subs| ==> dist(houses[i], subs[j]) > MAX_DISTANCE
    ensures Assigned(houses, subs, dist, upsert) == []
    decreases |houses|
  {
    if houses != [] {
      var front := houses[..|houses| - 1];
      NoneWithinReachAssignsNothing(front, subs, dist, upsert);
      NearestIsFirstNearestWithin(houses[|houses| - 1], subs, dist);
    }
  }

  /** The `house_connections` table. */
  class ConnectionTable {
    var rows: seq<HouseConnection>

    constructor (rows: seq<HouseConnection>)
      ensures this.rows == rows
    {
      this.rows := rows;
    }

    /** `delete().neq('id', '0')`: every row whose id is not `0` is removed. */
    method DeleteAllButZero()
      modifies this
      ensures rows == KeptByDelete(old(rows))
    {
      var kept: seq<HouseConnection> := [];
      for i := 0 to |rows|
        invariant kept == KeptByDelete(rows[..i])
      {
        assert rows[..i + 1][..i] == rows[..i];
        if rows[i].id == "0" {
          kept := kept + [rows[i]];
        }
      }
      assert rows[..|rows|] == rows;
      rows := kept;
    }

    /** An upsert that returned its row has stored it. */
    method Store(c: HouseConnection)
      modifies this
      ensures rows == old(rows) + [c]
    {
      rows := rows + [c];
    }
  }

  /** The rows the delete leaves, in table order. */
  function KeptByDelete(rows: seq<HouseConnection>): (r: seq<HouseConnection>)
    ensures forall c :: c in r <==> c in rows && c.id == "0"
    decreases |rows|
  {
    if rows == [] then []
    else
      var last := rows[|rows| - 1];
      var front := rows[..|rows| - 1];
      assert forall c :: c in rows <==> c in front || c == last;
      KeptByDelete(front) + (if last.id == "0" then [last] else [])
  }

  /**
   * `assignHousesToSubstations`: the old connections are deleted first
   * (the delete's own error is not checked, so `deleteFails` leaves the
   * table as it was); then, house by house, the nearest substation within
   * two miles is looked up and upserted, and each stored row is returned.
   */
  method AssignHousesToSubstations(table: ConnectionTable, houses: seq<PalmettoHouse>, subs: seq<SubstationRow>,
                                   dist: (PalmettoHouse, SubstationRow) -> real,
                                   upsert: (PalmettoHouse, SubstationRow, real) -> Option<HouseConnection>,
                                   deleteFails: bool)
    returns (connections: seq<HouseConnection>)
    modifies table
    ensures connections == Assigned(houses, subs, dist, upsert)
    ensures table.rows == (if deleteFails then old(table.rows) else KeptByDelete(old(table.rows))) + connections
  {
    if !deleteFails {
      table.DeleteAllButZero();
    }
    ghost var start := table.rows;
    connections := [];
    for i := 0 to |houses|
      invariant connections == Assigned(houses[..i], subs, dist, upsert)
      invariant table.rows == start + connections
    {
      assert houses[..i + 1][..i] == houses[..i];
      var house := houses[i];
      var nearest := NearestSubstationWithin(house, subs, dist);
      if nearest.Some? {
        var stored := upsert(house, nearest.value.substation, nearest.value.distance);
        if stored.Some? {
          table.Store(stored.value);
          connections := connections + [stored.value];
        }
      }
    }
    assert houses[..|houses|] == houses;
  }

  /** The inner loop of the assignment for one house. */
  method NearestSubstationWithin(h: PalmettoHouse, subs: seq<SubstationRow>,
                                 dist: (PalmettoHouse, SubstationRow) -> real)
    returns (r: Option<Choice>)
    ensures r == Nearest(h, subs, dist)
  {
    r := None;
    for j := 0 to |subs|
      invariant r == Nearest(h, subs[..j], dist)
    {
      assert subs[..j + 1][..j] == subs[..j];
      var d := dist(h, subs[j]);
      if (r.None? || d < r.value.distance) && d <= MAX_DISTANCE {
        r := Some(Choice(subs[j], d));
      }
    }
    assert subs[..|subs|] == subs;
  }
}
