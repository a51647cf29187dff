/** geoshortcuts/shortcuts.py, the older all-in-one module: its own
    geometry-field lookup and property rendering, a `render_to_geojson`
    with a `transform` argument and a `MaxFeatures` pair, and a
    `render_to_gpx` whose metadata and decoration code is that of gpx.py
    but whose bounds lack the emptiness guard. */
module Shortcuts {
  import opened Base
  import opened Text
  import opened Values
  import opened Geometry
  import Lookup
  import GeoJson
  import Gpx

  // ---------------------------------------------------------------- property values

  /** `__simple_render_to_json` as written here: ints, floats and bools are
      kept and everything else goes through `str()`, which under Python 2
      refuses unicode text that is not ASCII. */
  function SimpleRenderToJson(v: Value): (r: Result<GeoJson.JsonScalar>)
    ensures r.Err? <==> v.Unicode? && !IsAscii(v.text)
    ensures r.Err? ==> r.error == UnicodeEncodeError
  {
    match v
    case Int(i) => Ok(GeoJson.JInt(i))
    case Float(f) => Ok(GeoJson.JFloat(f))
    case Bool(b) => Ok(GeoJson.JBool(b))
    case _ =>
      var s := StrOf(v);
      if s.Err? then Err(s.error) else Ok(GeoJson.JStr(s.value))
  }

  /** Where it succeeds this rendering agrees with geojson.py's, which
      encodes unicode as UTF-8; it fails exactly on non-ASCII unicode text,
      which geojson.py renders. */
  lemma SimpleRenderToJsonAgrees(v: Value)
    ensures SimpleRenderToJson(v).Ok? ==> SimpleRenderToJson(v).value == GeoJson.SimpleRenderToJson(v)
    ensures SimpleRenderToJson(v).Err? ==> GeoJson.SimpleRenderToJson(v) == GeoJson.JStr(Utf8(v.text))
  {
  }

  /** A property holding u"é" makes this rendering raise, while
      geojson.py renders it as the two UTF-8 bytes C3 A9. */
  lemma NonAsciiPropertyFails()
    ensures SimpleRenderToJson(Unicode("é")) == Err(UnicodeEncodeError)
    ensures GeoJson.SimpleRenderToJson(Unicode("é")) == GeoJson.JStr([0xC3, 0xA9])
  {
  }

  // ---------------------------------------------------------------- geometry field

  /** The lookup as written: every field overwrites `geom_field`, so only the
      last field decides; with no fields the name is never bound. */
  function LastFieldLookup(fields: seq<Field>): (r: Result<string>)
    ensures fields == [] ==> r == Err(NameError("geom_field"))
    ensures fields != [] ==> (r.Ok? <==> fields[|fields| - 1].isGeometry)
    ensures fields != [] && r.Ok? ==> r.value == fields[|fields| - 1].name
    ensures fields != [] && r.Err? ==> r.error == ValueError
  {
    if fields == [] then Err(NameError("geom_field"))
    else if fields[|fields| - 1].isGeometry then Ok(fields[|fields| - 1].name)
    else Err(ValueError)
  }

  /** `find_geom_field` of this module. */
  method FindGeomField(fields: seq<Field>) returns (r: Result<string>)
    ensures r == LastFieldLookup(fields)
  {
    var bound := false;
    var geomField: Option<string> := None;
    for i := 0 to |fields|
      invariant bound == (i > 0)
      invariant i > 0 ==> geomField == (if fields[i - 1].isGeometry then Some(fields[i - 1].name) else None)
    {
      geomField := if fields[i].isGeometry then Some(fields[i].name) else None;
      bound := true;
    }
    if !bound {
      return Err(NameError("geom_field"));
    }
    if geomField.None? {
      return Err(ValueError);
    }
    return Ok(geomField.value);
  }

  /** The lookup as written succeeds only when the last field is a geometry
      field, so a model whose geometry field is followed by another field is
      refused; the intended lookup finds it. */
  lemma GeometryFieldMustBeLast(fields: seq<Field>)
    ensures LastFieldLookup(fields).Ok? ==> Lookup.GeomFieldName(fields).Some?
    ensures var fs := [Field("geom", true), Field("name", false)];
            LastFieldLookup(fs) == Err(ValueError) && Lookup.GeomFieldName(fs) == Some("geom")
  {
  }

  // ---------------------------------------------------------------- GeoJSON

  /** `collections.namedtuple('MaxFeatures', ['maxfeatures', 'priority_field'])`. */
  datatype MaxFeatures = MaxFeatures(maxfeatures: int, priorityField: string)

  /** The keyword arguments of this `render_to_geojson` that shape the document. */
  datatype Options = Options(transform: Option<int>, simplify: Option<real>, bbox: Option<Geometry>,
                             maxfeatures: Option<MaxFeatures>, properties: Option<seq<string>>)

  /** The records rendered: the optional intersects filter, then at most
      `maxfeatures.maxfeatures` of them (the discarded `order_by` orders
      nothing). */
  function Select(rs: seq<Record>, opts: Options, geos: Geos): (r: Result<seq<Record>>)
    ensures opts.maxfeatures.None? ==> r == Ok(GeoJson.Filtered(rs, opts.bbox, geos))
    ensures opts.maxfeatures.Some? ==>
              (r.Ok? <==> opts.maxfeatures.value.maxfeatures >= 0) &&
              (r.Ok? ==> r.value <= GeoJson.Filtered(rs, opts.bbox, geos) &&
                         |r.value| == GeoJson.MinInt(opts.maxfeatures.value.maxfeatures, |GeoJson.Filtered(rs, opts.bbox, geos)|))
  {
    var filtered := GeoJson.Filtered(rs, opts.bbox, geos);
    if opts.maxfeatures.None? then Ok(filtered) else GeoJson.Limit(filtered, opts.maxfeatures.value.maxfeatures)
  }

  function PropertyNames(opts: Options, schema: Schema): seq<string>
  {
    if opts.properties.Some? then opts.properties.value else schema.allFieldNames
  }

  /** `render_to_geojson` of this module, with the intended geometry-field
      lookup and property rendering.  Unlike geojson.py it reprojects
      whenever `transform` is given, and its default property names are all
      of the model's field names. */
  method RenderToGeoJson(qs: QuerySet, opts: Options, geos: Geos) returns (r: Result<GeoJson.FeatureCollection>)
    ensures Lookup.GeomFieldName(qs.schema.fields).None? ==> r == Err(ValueError)
    ensures var geomField := Lookup.GeomFieldName(qs.schema.fields);
            var sel := Select(qs.records, opts, geos);
            r.Ok? <==> geomField.Some? && sel.Ok? &&
                       forall i :: 0 <= i < |sel.value| ==>
                         GeoJson.PropertiesOf(sel.value[i], PropertyNames(opts, qs.schema), geomField.value).Ok?
    ensures r.Ok? ==>
              var geomField := Lookup.GeomFieldName(qs.schema.fields).value;
              var sel := Select(qs.records, opts, geos).value;
              var src := GeoJson.SourceSrid(sel);
              var out := GeoJson.OutputSrid(opts.transform, src);
              var fc := r.value;
              fc.typ == GeoJson.FeatureCollectionType &&
              |fc.features| == |sel| &&
              (forall i :: 0 <= i < |sel| ==>
                 var g := if opts.transform.Some? then geos.transform(sel[i].geom, opts.transform.value) else sel[i].geom;
                 fc.features[i].typ == GeoJson.FeatureType && fc.features[i].id == sel[i].pk &&
                 fc.features[i].properties == GeoJson.PropertiesOf(sel[i], PropertyNames(opts, qs.schema), geomField).value &&
                 fc.features[i].geometry == (if opts.simplify.Some? then geos.simplify(g, opts.simplify.value) else g)) &&
              (fc.crs.Some? <==> src.Some?) && (fc.srid.Some? <==> src.Some?) &&
              (src.Some? ==> fc.srid == out && fc.crs == Some(GeoJson.CrsFor(out.value))) &&
              (fc.bbox.Some? <==> |sel| > 0) &&
              (|sel| > 0 && opts.transform.None? ==> fc.bbox == Some(Extent(sel))) &&
              (|sel| > 0 && opts.transform.Some? ==>
                 fc.bbox == Some(GeoJson.ReprojectedBox(Extent(sel), src, opts.transform.value, geos)))
  {
    var found := Lookup.FindGeomField(qs.schema.fields);
    if found.Err? {
      return Err(found.error);
    }
    var geomField := found.value;
    var selected := Select(qs.records, opts, geos);
    if selected.Err? {
      return Err(selected.error);
    }
    var sel := selected.value;
    var src := GeoJson.SourceSrid(sel);
    var out := GeoJson.OutputSrid(opts.transform, src);
    var items := if opts.transform.Some? then GeoJson.Reprojected(sel, opts.transform.value, geos) else sel;
    var names := PropertyNames(opts, qs.schema);
    var features := GeoJson.BuildFeatures(items, names, geomField, opts.simplify, geos);
    GeoJson.FeaturesOfMeaning(items, names, geomField, opts.simplify, geos);
    forall i | 0 <= i < |sel|
      ensures GeoJson.PropertiesOf(items[i], names, geomField) == GeoJson.PropertiesOf(sel[i], names, geomField)
    {
      GeoJson.PropertiesIgnoreGeometry(items[i], sel[i], names, geomField, map[]);
    }
    if features.Err? {
      return Err(features.error);
    }
    var crs := if src.Some? then Some(GeoJson.CrsFor(out.value)) else None;
    var srid := if src.Some? then out else None;
    var bbox := if |sel| == 0 then None
                else if opts.transform.Some? then Some(GeoJson.ReprojectedBox(Extent(sel), src, opts.transform.value, geos))
                else Some(Extent(sel));
    return Ok(GeoJson.FeatureCollection(GeoJson.FeatureCollectionType, features.value, crs, srid, bbox));
  }

  // ---------------------------------------------------------------- GPX

  /** The bounds one optional queryset contributes as written here: with no
      emptiness guard, `extent()` of an empty queryset is None and indexing
      it raises TypeError. */
  function QuerySetBoundsAsWritten(qs: Option<QuerySet>): (r: Result<Bounds>)
    ensures r.Err? <==> qs.Some? && |qs.value.records| == 0
    ensures r.Err? ==> r.error == TypeError
    ensures r.Ok? ==> r.value == Gpx.QuerySetBounds(qs)
  {
    if qs.None? then Ok(EmptyBounds)
    else if |qs.value.records| == 0 then Err(TypeError)
    else Ok(BoundsOf(Extent(qs.value.records)))
  }

  /** An empty point queryset next to a non-empty path queryset: gpx.py
      writes the path's bounds, this module raises TypeError. */
  lemma EmptyQuerySetFails(pois: QuerySet, paths: QuerySet)
    requires |pois.records| == 0 && |paths.records| > 0
    ensures QuerySetBoundsAsWritten(Some(pois)) == Err(TypeError)
    ensures Combine(Gpx.QuerySetBounds(Some(pois)), Gpx.QuerySetBounds(Some(paths))) == BoundsOf(Extent(paths.records))
  {
  }

  /** `render_to_gpx` of this module: the bounds are taken as written, and
      everything after them is the same code as gpx.py's. */
  method RenderToGpx(creator: string, poi: Option<QuerySet>, path: Option<QuerySet>, meta: Option<Gpx.MetaDict>,
                     poiMapping: Option<Gpx.Mapping>, pathMapping: Option<Gpx.Mapping>, rt: Runtime)
    returns (r: Result<Gpx.GpxDoc>)
    ensures poi.None? && path.None? ==> r == Err(ValueError)
    ensures ((poi.Some? || path.Some?) &&
             (QuerySetBoundsAsWritten(poi).Err? || QuerySetBoundsAsWritten(path).Err?)) ==> r == Err(TypeError)
    ensures r.Ok? <==> (poi.Some? || path.Some?) &&
                       QuerySetBoundsAsWritten(poi).Ok? && QuerySetBoundsAsWritten(path).Ok? &&
                       (meta.Some? ==> Gpx.MetaOf(meta.value).Ok?) &&
                       (poi.Some? ==> Lookup.GeomFieldName(poi.value.schema.fields).Some? &&
                                      Gpx.AddWaypoints(poi.value.records, poiMapping, rt, []).Ok?) &&
                       (path.Some? ==> Lookup.GeomFieldName(path.value.schema.fields).Some? &&
                                       Gpx.AddRoutes(path.value.records, pathMapping, rt, []).Ok?)
    ensures r.Ok? ==>
              var doc := r.value;
              doc.version == Gpx.GpxVersion && doc.creator == creator &&
              doc.metadata == (if meta.Some? then Gpx.MetaOf(meta.value).value else Gpx.NoMetadata).(
                                 bounds := Some(Combine(QuerySetBoundsAsWritten(poi).value, QuerySetBoundsAsWritten(path).value))) &&
              |doc.wpts| == (if poi.Some? then |poi.value.records| else 0) &&
              |doc.rtes| == (if path.Some? then |path.value.records| else 0) &&
              (poi.Some? ==> forall i :: 0 <= i < |doc.wpts| ==>
                               Gpx.WaypointOf(poi.value.records[i], poiMapping, rt).Ok? &&
                               doc.wpts[i] == Gpx.WaypointOf(poi.value.records[i], poiMapping, rt).value) &&
              (path.Some? ==> forall i :: 0 <= i < |doc.rtes| ==>
                                Gpx.RouteOf(path.value.records[i], pathMapping, rt).Ok? &&
                                doc.rtes[i] == Gpx.RouteOf(path.value.records[i], pathMapping, rt).value)
  {
    if poi.None? && path.None? {
      return Err(ValueError);
    }
    var poiBounds := QuerySetBoundsAsWritten(poi);
    if poiBounds.Err? {
      return Err(poiBounds.error);
    }
    var pathBounds := QuerySetBoundsAsWritten(path);
    if pathBounds.Err? {
      return Err(pathBounds.error);
    }
    r := Gpx.RenderToGpx(creator, poi, path, meta, poiMapping, pathMapping, rt);
  }
}
