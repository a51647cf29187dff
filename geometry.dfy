/** Records, their geometries and the spatial helpers the renderers use:
    a queryset's extent, `Polygon.from_bbox`, the intersects filter, and the
    GPX bounds arithmetic over reals extended with the two infinities. */
module Geometry {
  import opened Base
  import opened Values

  /** One coordinate tuple; `z` is present for a 3-component tuple. */
  datatype Coord = Coord(x: real, y: real, z: Option<real>)

  datatype GeomKind = Point | LineString | Polygon

  type Coords = s: seq<Coord> | |s| > 0 witness [Coord(0.0, 0.0, None)]

  /** A GEOS geometry: its kind, its SRID (None when unset) and its
      coordinates (for a polygon, those of all its rings, in order). */
  datatype Geometry = Geometry(kind: GeomKind, srid: Option<int>, coords: Coords)

  /** A model instance: its primary key, the value of its geometry field,
      and every other attribute `getattr` can reach, by name. */
  datatype Record = Record(pk: Value, geom: Geometry, attrs: map<string, Value>)

  /** A concrete model field as `_meta.fields` lists it. */
  datatype Field = Field(name: string, isGeometry: bool)

  /** A model's metadata: its concrete fields in declaration order, and the
      names `_meta.get_all_field_names()` reports (which also include
      reverse relations). */
  datatype Schema = Schema(fields: seq<Field>, allFieldNames: seq<string>)

  /** A queryset: the model's schema and the records it yields, in order. */
  datatype QuerySet = QuerySet(schema: Schema, records: seq<Record>)

  /** The GEOS and spatial-database operations the model takes as given:
      the intersects predicate, reprojection to an SRID, and
      Douglas-Peucker simplification with a tolerance. */
  datatype Geos = Geos(intersects: (Geometry, Geometry) -> bool,
                       transform: (Geometry, int) -> Geometry,
                       simplify: (Geometry, real) -> Geometry)

  // ---------------------------------------------------------------- extent

  /** An extent tuple (xmin, ymin, xmax, ymax). */
  datatype Envelope = Envelope(xmin: real, ymin: real, xmax: real, ymax: real)

  function MinR(a: real, b: real): real { if b < a then b else a }
  function MaxR(a: real, b: real): real { if b > a then b else a }

  /** The smallest envelope holding every coordinate. */
  function EnvelopeOf(cs: seq<Coord>): Envelope
    requires |cs| > 0
  {
    if |cs| == 1 then Envelope(cs[0].x, cs[0].y, cs[0].x, cs[0].y)
    else
      var e := EnvelopeOf(cs[1..]);
      Envelope(MinR(cs[0].x, e.xmin), MinR(cs[0].y, e.ymin), MaxR(cs[0].x, e.xmax), MaxR(cs[0].y, e.ymax))
  }

  predicate Covers(e: Envelope, c: Coord)
  {
    e.xmin <= c.x <= e.xmax && e.ymin <= c.y <= e.ymax
  }

  /** The envelope holds every coordinate, and each of its four sides is
      attained by some coordinate: it is the smallest such box. */
  lemma {:induction false} EnvelopeOfIsTight(cs: seq<Coord>)
    requires |cs| > 0
    ensures forall i :: 0 <= i < |cs| ==> Covers(EnvelopeOf(cs), cs[i])
    ensures exists i :: 0 <= i < |cs| && cs[i].x == EnvelopeOf(cs).xmin
    ensures exists i :: 0 <= i < |cs| && cs[i].y == EnvelopeOf(cs).ymin
    ensures exists i :: 0 <= i < |cs| && cs[i].x == EnvelopeOf(cs).xmax
    ensures exists i :: 0 <= i < |cs| && cs[i].y == EnvelopeOf(cs).ymax
  {
    if |cs| > 1 {
      var rest := cs[1..];
      EnvelopeOfIsTight(rest);
      var e := EnvelopeOf(cs);
      forall i | 0 <= i < |cs| ensures Covers(e, cs[i]) {
        if i > 0 { assert cs[i] == rest[i - 1]; }
      }
      var r := EnvelopeOf(rest);
      var i0 :| 0 <= i0 < |rest| && rest[i0].x == r.xmin;
      var i1 :| 0 <= i1 < |rest| && rest[i1].y == r.ymin;
      var i2 :| 0 <= i2 < |rest| && rest[i2].x == r.xmax;
      var i3 :| 0 <= i3 < |rest| && rest[i3].y == r.ymax;
      assert cs[i0 + 1] == rest[i0] && cs[i1 + 1] == rest[i1] && cs[i2 + 1] == rest[i2] && cs[i3 + 1] == rest[i3];
      if e.xmin == cs[0].x { assert cs[0].x == e.xmin; } else { assert cs[i0 + 1].x == e.xmin; }
      if e.ymin == cs[0].y { assert cs[0].y == e.ymin; } else { assert cs[i1 + 1].y == e.ymin; }
      if e.xmax == cs[0].x { assert cs[0].x == e.xmax; } else { assert cs[i2 + 1].x == e.xmax; }
      if e.ymax == cs[0].y { assert cs[0].y == e.ymax; } else { assert cs[i3 + 1].y == e.ymax; }
    } else {
      var e := EnvelopeOf(cs);
      assert cs[0].x == e.xmin && cs[0].y == e.ymin && cs[0].x == e.xmax && cs[0].y == e.ymax;
    }
  }

  /** Every coordinate of every record, record by record. */
  function AllCoords(rs: seq<Record>): (cs: seq<Coord>)
    ensures |rs| > 0 ==> |cs| > 0
  {
    if rs == [] then [] else rs[0].geom.coords + AllCoords(rs[1..])
  }

  lemma {:induction false} AllCoordsHas(rs: seq<Record>, i: nat, j: nat)
    requires i < |rs| && j < |rs[i].geom.coords|
    ensures rs[i].geom.coords[j] in AllCoords(rs)
  {
    if i > 0 {
      AllCoordsHas(rs[1..], i - 1, j);
    } else {
      assert AllCoords(rs)[j] == rs[0].geom.coords[j];
    }
  }

  /** `queryset.extent()` of a non-empty queryset. */
  function Extent(rs: seq<Record>): Envelope
    requires |rs| > 0
  {
    EnvelopeOf(AllCoords(rs))
  }

  /** The extent holds every coordinate of every record. */
  lemma ExtentCovers(rs: seq<Record>, i: nat, j: nat)
    requires i < |rs| && j < |rs[i].geom.coords|
    ensures Covers(Extent(rs), rs[i].geom.coords[j])
  {
    AllCoordsHas(rs, i, j);
    EnvelopeOfIsTight(AllCoords(rs));
  }

  /** `Polygon.from_bbox(e)` with its SRID set to `srid`: the closed ring
      through the four corners. */
  function BoxPolygon(e: Envelope, srid: Option<int>): (g: Geometry)
    ensures g.kind == Polygon && g.srid == srid
  {
    Geometry(Polygon, srid, [Coord(e.xmin, e.ymin, None), Coord(e.xmin, e.ymax, None), Coord(e.xmax, e.ymax, None),
                             Coord(e.xmax, e.ymin, None), Coord(e.xmin, e.ymin, None)])
  }

  /** The extent of the box polygon of a proper envelope is that envelope. */
  lemma BoxPolygonExtent(e: Envelope, srid: Option<int>)
    requires e.xmin <= e.xmax && e.ymin <= e.ymax
    ensures EnvelopeOf(BoxPolygon(e, srid).coords) == e
  {
    var cs := BoxPolygon(e, srid).coords;
    assert EnvelopeOf(cs[4..]) == Envelope(e.xmin, e.ymin, e.xmin, e.ymin);
    assert cs[3..][1..] == cs[4..];
    assert EnvelopeOf(cs[3..]) == Envelope(e.xmin, e.ymin, e.xmax, e.ymin);
    assert cs[2..][1..] == cs[3..];
    assert EnvelopeOf(cs[2..]) == e;
    assert cs[1..][1..] == cs[2..];
    assert EnvelopeOf(cs[1..]) == e;
  }

  // ---------------------------------------------------------------- filter

  /** `queryset.filter(<geom>__intersects=area)`: the records whose geometry
      intersects `area`, in their original order. */
  function Intersecting(rs: seq<Record>, area: Geometry, intersects: (Geometry, Geometry) -> bool): (r: seq<Record>)
    ensures |r| <= |rs|
    ensures forall k :: 0 <= k < |r| ==> r[k] in rs && intersects(r[k].geom, area)
    ensures forall k :: 0 <= k < |rs| && intersects(rs[k].geom, area) ==> rs[k] in r
  {
    if rs == [] then []
    else
      var rest := Intersecting(rs[1..], area, intersects);
      assert forall k :: 1 <= k < |rs| ==> rs[k] == rs[1..][k - 1];
      if intersects(rs[0].geom, area) then [rs[0]] + rest else rest
  }

  /** Filtering a concatenation filters each part and keeps the parts in
      order, so the kept records stay in their original relative order. */
  lemma {:induction false} IntersectingConcat(a: seq<Record>, b: seq<Record>, area: Geometry,
                                              intersects: (Geometry, Geometry) -> bool)
    ensures Intersecting(a + b, area, intersects) == Intersecting(a, area, intersects) + Intersecting(b, area, intersects)
  {
    if a == [] {
      assert a + b == b;
    } else {
      assert (a + b)[0] == a[0] && (a + b)[1..] == a[1..] + b;
      IntersectingConcat(a[1..], b, area, intersects);
      var x, y := Intersecting(a[1..], area, intersects), Intersecting(b, area, intersects);
      assert [a[0]] + (x + y) == ([a[0]] + x) + y;
    }
  }

  // ---------------------------------------------------------------- GPX bounds

  /** A float bound, where the two infinities stand for "no coordinate yet". */
  datatype ExtReal = NegInf | Fin(r: real) | PosInf

  predicate Le(a: ExtReal, b: ExtReal)
  {
    a.NegInf? || b.PosInf? || (a.Fin? && b.Fin? && a.r <= b.r)
  }

  /** Python's `min(a, b)`. */
  function Min(a: ExtReal, b: ExtReal): (m: ExtReal)
    ensures Le(m, a) && Le(m, b) && (m == a || m == b)
  {
    if Le(a, b) then a else b
  }

  /** Python's `max(a, b)`. */
  function Max(a: ExtReal, b: ExtReal): (m: ExtReal)
    ensures Le(a, m) && Le(b, m) && (m == a || m == b)
  {
    if Le(a, b) then b else a
  }

  /** A GPX `boundsType`. */
  datatype Bounds = Bounds(minlon: ExtReal, minlat: ExtReal, maxlon: ExtReal, maxlat: ExtReal)

  /** The bounds an absent or empty collection contributes:
      (+inf, +inf, -inf, -inf). */
  const EmptyBounds := Bounds(PosInf, PosInf, NegInf, NegInf)

  function BoundsOf(e: Envelope): Bounds
  {
    Bounds(Fin(e.xmin), Fin(e.ymin), Fin(e.xmax), Fin(e.ymax))
  }

  /** Componentwise min of the lower corners and max of the upper ones. */
  function Combine(a: Bounds, b: Bounds): Bounds
  {
    Bounds(Min(a.minlon, b.minlon), Min(a.minlat, b.minlat), Max(a.maxlon, b.maxlon), Max(a.maxlat, b.maxlat))
  }

  predicate Within(b: Bounds, c: Coord)
  {
    Le(b.minlon, Fin(c.x)) && Le(Fin(c.x), b.maxlon) && Le(b.minlat, Fin(c.y)) && Le(Fin(c.y), b.maxlat)
  }

  /** The empty bounds are the identity of `Combine` on either side, and
      `Combine` does not depend on the order of its arguments. */
  lemma CombineIdentity(b: Bounds)
    ensures Combine(EmptyBounds, b) == b && Combine(b, EmptyBounds) == b
    ensures forall a :: Combine(a, b) == Combine(b, a)
  {
  }

  /** No coordinate lies within the empty bounds; combining never drops a
      coordinate either side already held. */
  lemma CombineWithin(a: Bounds, b: Bounds, c: Coord)
    ensures !Within(EmptyBounds, c)
    ensures Within(a, c) || Within(b, c) ==> Within(Combine(a, b), c)
  {
  }

  lemma ExtentWithin(rs: seq<Record>, i: nat, j: nat)
    requires i < |rs| && j < |rs[i].geom.coords|
    ensures Within(BoundsOf(Extent(rs)), rs[i].geom.coords[j])
  {
    ExtentCovers(rs, i, j);
  }
}
