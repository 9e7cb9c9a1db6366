/**
 * Fitting the map to the data (src/components/map/components/MapBounds.tsx):
 * the points that pass the inline coordinate check extend the bounds, and
 * the map is fitted only when at least one point did.
 */
module MapBounds {
  import opened Js
  import opened Types
  import opened MapSurface
  import opened MapUtils

  /** A point of the combined list: only its two coordinates are read. */
  datatype Point = Point(longitude: Num, latitude: Num)

  /** The points of one list, in its order; `at` reads an element's two coordinates. */
  function PointsOf<T>(xs: seq<T>, at: T -> Point): (r: seq<Point>)
    ensures |r| == |xs|
    ensures forall i :: 0 <= i < |r| ==> r[i] == at(xs[i])
  {
    seq(|xs|, i requires 0 <= i < |xs| => at(xs[i]))
  }

  function AssetPoint(a: Asset): Point { Point(a.longitude, a.latitude) }

  function HousePoint(h: PalmettoHouse): Point { Point(h.longitude, h.latitude) }

  function RowPoint(r: SubstationRow): Point { Point(r.longitude, r.latitude) }

  function PgePoint(s: PgeSubstation): Point { Point(s.longitude, s.latitude) }

  /** A point extends the bounds iff it passes the inline check (non-zero, non-NaN, in range). */
  predicate Extends(p: Point) {
    PlottableInline(p.longitude, p.latitude)
  }

  /** The position a contributing point adds to the bounds. */
  function Position(p: Point): LngLat
    requires Extends(p)
  {
    LngLat(p.longitude.v, p.latitude.v)
  }

  /** The positions that extend the bounds, in list order. */
  function Contributed(ps: seq<Point>): seq<LngLat>
    decreases |ps|
  {
    if ps == [] then []
    else
      var last := ps[|ps| - 1];
      Contributed(ps[..|ps| - 1]) + (if Extends(last) then [Position(last)] else [])
  }

  /** No position is contributed iff no point passes the check. */
  lemma {:induction false} ContributedEmptyIff(ps: seq<Point>)
    ensures Contributed(ps) == [] <==> forall i :: 0 <= i < |ps| ==> !Extends(ps[i])
    decreases |ps|
  {
    if ps != [] {
      var front := ps[..|ps| - 1];
      ContributedEmptyIff(front);
      assert forall i :: 0 <= i < |front| ==> front[i] == ps[i];
    }
  }

  /**
   * Every contributed position is the position of a point that passed the
   * check, so it is non-zero and within the longitude and latitude ranges;
   * and every passing point's position is contributed.
   */
  lemma {:induction false} ContributedPositions(ps: seq<Point>)
    ensures forall q :: q in Contributed(ps) ==>
      exists i :: 0 <= i < |ps| && Extends(ps[i]) && q == Position(ps[i])
    ensures forall i :: 0 <= i < |ps| && Extends(ps[i]) ==> Position(ps[i]) in Contributed(ps)
    decreases |ps|
  {
    if ps != [] {
      var front := ps[..|ps| - 1];
      ContributedPositions(front);
      assert forall i :: 0 <= i < |front| ==> front[i] == ps[i];
    }
  }

  /** A contributed position lies in the inclusive ranges and has no zero coordinate. */
  lemma ContributedInRange(ps: seq<Point>, q: LngLat)
    requires q in Contributed(ps)
    ensures -180.0 <= q.lng <= 180.0 && -90.0 <= q.lat <= 90.0
    ensures q.lng != 0.0 && q.lat != 0.0
  {
    ContributedPositions(ps);
  }

  /**
   * The effect. The combined list of assets, houses and substation rows is
   * scanned, then the PG&E substations under the same rule; `extended` is
   * what was added to the bounds, and `fitCalled` says whether `fitBounds`
   * was called. An error thrown by `fitBounds` is caught and changes
   * neither result.
   */
  method FitMapBounds(assets: seq<Asset>, houses: seq<PalmettoHouse>, substations: seq<SubstationRow>,
                      pge: seq<PgeSubstation>)
    returns (extended: seq<LngLat>, fitCalled: bool)
    ensures extended == Contributed(PointsOf(assets, AssetPoint) + PointsOf(houses, HousePoint)
                                    + PointsOf(substations, RowPoint))
                        + Contributed(PointsOf(pge, PgePoint))
    ensures fitCalled <==> extended != []
  {
    var points := PointsOf(assets, AssetPoint) + PointsOf(houses, HousePoint) + PointsOf(substations, RowPoint);
    extended := [];
    var hasBounds := false;
    for i := 0 to |points|
      invariant extended == Contributed(points[..i])
      invariant hasBounds <==> extended != []
    {
      assert points[..i + 1][..i] == points[..i];
      var p := points[i];
      if Extends(p) {
        extended := extended + [Position(p)];
        hasBounds := true;
      }
    }
    assert points[..|points|] == points;
    var first := extended;
    if |pge| > 0 {
      var ps := PointsOf(pge, PgePoint);
      for j := 0 to |ps|
        invariant extended == first + Contributed(ps[..j])
        invariant hasBounds <==> extended != []
      {
        assert ps[..j + 1][..j] == ps[..j];
        var p := ps[j];
        if Extends(p) {
          extended := extended + [Position(p)];
          hasBounds := true;
        }
      }
      assert ps[..|ps|] == ps;
    }
    // an error thrown by `fitBounds` is logged and swallowed
    fitCalled := hasBounds && extended != [];
  }

  /** Scanning two lists one after the other contributes the positions of each in turn. */
  lemma {:induction false} ContributedConcat(ps: seq<Point>, qs: seq<Point>)
    ensures Contributed(ps + qs) == Contributed(ps) + Contributed(qs)
    decreases |qs|
  {
    if qs == [] {
      assert ps + qs == ps;
    } else {
      var front := qs[..|qs| - 1];
      ContributedConcat(ps, front);
      assert (ps + qs)[..|ps + qs| - 1] == ps + front;
    }
  }

  /** A list contributes a position iff one of its elements passes the check. */
  lemma PointsContribute<T>(xs: seq<T>, at: T -> Point)
    ensures Contributed(PointsOf(xs, at)) != [] <==> exists x :: x in xs && Extends(at(x))
  {
    ContributedEmptyIff(PointsOf(xs, at));
    if exists x :: x in xs && Extends(at(x)) {
      var x :| x in xs && Extends(at(x));
      var i :| 0 <= i < |xs| && xs[i] == x;
      assert Extends(PointsOf(xs, at)[i]);
    }
  }

  /** `fitBounds` is called iff some asset, house, substation row or PG&E substation passes the check. */
  lemma FitCalledIffSomePointPasses(assets: seq<Asset>, houses: seq<PalmettoHouse>,
                                    substations: seq<SubstationRow>, pge: seq<PgeSubstation>)
    ensures Contributed(PointsOf(assets, AssetPoint) + PointsOf(houses, HousePoint)
                        + PointsOf(substations, RowPoint))
            + Contributed(PointsOf(pge, PgePoint)) != []
      <==> (exists a :: a in assets && PlottableInline(a.longitude, a.latitude))
           || (exists h :: h in houses && PlottableInline(h.longitude, h.latitude))
           || (exists r :: r in substations && PlottableInline(r.longitude, r.latitude))
           || (exists s :: s in pge && PlottableInline(s.longitude, s.latitude))
  {
    ContributedConcat(PointsOf(assets, AssetPoint) + PointsOf(houses, HousePoint), PointsOf(substations, RowPoint));
    ContributedConcat(PointsOf(assets, AssetPoint), PointsOf(houses, HousePoint));
    PointsContribute(assets, AssetPoint);
    PointsContribute(houses, HousePoint);
    PointsContribute(substations, RowPoint);
    PointsContribute(pge, PgePoint);
  }
}
