/** `render_to_geojson` of geoshortcuts/geojson.py: a queryset becomes a
    GeoJSON FeatureCollection with one Feature per selected record, a `crs`
    link to spatialreference.org, the SRID and a bounding box.  The
    collection is modelled as the document simplejson would serialise. */
module GeoJson {
  import opened Base
  import opened Text
  import opened Values
  import opened Geometry
  import Lookup

  const SpatialRefSite: string := "http://spatialreference.org/ref/epsg/"
  const FeatureType: string := "Feature"
  const FeatureCollectionType: string := "FeatureCollection"
  const LinkType: string := "link"
  const Proj4Type: string := "proj4"

  // ---------------------------------------------------------------- property values

  /** A JSON scalar as simplejson writes it: a number, a boolean, or a string
      given by its bytes. */
  datatype JsonScalar = JInt(i: int) | JFloat(f: real) | JBool(b: bool) | JStr(bytes: seq<byte>)

  /** The Python value that simplejson writes as `j`. */
  function Decode(j: JsonScalar): Value
  {
    match j
    case JInt(i) => Int(i)
    case JFloat(f) => Float(f)
    case JBool(b) => Bool(b)
    case JStr(s) => Bytes(s)
  }

  /** `__simple_render_to_json`: ints, floats and bools are kept, unicode
      text becomes its UTF-8 bytes, anything else its `str()`. */
  function SimpleRenderToJson(v: Value): JsonScalar
  {
    match v
    case Int(i) => JInt(i)
    case Float(f) => JFloat(f)
    case Bool(b) => JBool(b)
    case Unicode(t) => JStr(Utf8(t))
    case _ => JStr(StrOf(v).value)
  }

  /** A value survives rendering unchanged exactly when it already is a JSON
      scalar (int, float, bool, byte string); every other value is rendered
      as a string, unicode text as its UTF-8 bytes, which are ASCII exactly
      when the text is; and every JSON scalar is reached. */
  lemma SimpleRenderToJsonMeaning(v: Value)
    ensures Decode(SimpleRenderToJson(v)) == v <==> (v.Int? || v.Float? || v.Bool? || v.Bytes?)
    ensures !(v.Int? || v.Float? || v.Bool?) ==> SimpleRenderToJson(v).JStr?
    ensures v.Unicode? ==> SimpleRenderToJson(v) == JStr(Utf8(v.text)) &&
                           (IsAsciiBytes(SimpleRenderToJson(v).bytes) <==> IsAscii(v.text))
    ensures forall j :: SimpleRenderToJson(Decode(j)) == j
  {
    if v.Unicode? {
      Utf8Length(v.text);
    }
  }

  // ---------------------------------------------------------------- crs

  datatype LinkProperties = LinkProperties(href: string, typ: string)

  /** The `crs` member: a link to the projection's proj4 definition. */
  datatype Crs = Crs(typ: string, properties: LinkProperties)

  /** `'%s%s/' % (SPATIAL_REF_SITE, srid)`. */
  function Href(srid: int): string
  {
    SpatialRefSite + IntDecimal(srid) + "/"
  }

  function CrsFor(srid: int): Crs
  {
    Crs(LinkType, LinkProperties(Href(srid), Proj4Type))
  }

  /** The link names the SRID it was made for: it is the site address, the
      decimal SRID and a slash, and the SRID reads back from it. */
  lemma HrefNamesSrid(srid: int)
    ensures var h := Href(srid);
            var n := |SpatialRefSite|;
            |h| > n + 1 && h[..n] == SpatialRefSite && h[|h| - 1] == '/' &&
            var digits := h[n..|h| - 1];
            digits == IntDecimal(srid) &&
            (digits[0] == '-' ==> AllDigits(digits[1..])) && (digits[0] != '-' ==> AllDigits(digits)) &&
            DecimalValue(digits) == srid
  {
    IntDecimalRoundTrip(srid);
    var h := Href(srid);
    assert h[|SpatialRefSite|..|h| - 1] == IntDecimal(srid);
  }

  // ---------------------------------------------------------------- documents

  /** One Feature: its `id` (the record's primary key), its properties and
      its geometry (what `simplejson.loads(geom.geojson)` gives back). */
  datatype Feature = Feature(typ: string, id: Value, properties: map<string, JsonScalar>, geometry: Geometry)

  datatype FeatureCollection = FeatureCollection(typ: string, features: seq<Feature>, crs: Option<Crs>,
                                                 srid: Option<int>, bbox: Option<Envelope>)

  /** The keyword arguments of `render_to_geojson` that shape the document
      (`prettyprint` only changes the indentation of the text). */
  datatype Options = Options(projection: Option<int>, simplify: Option<real>, extent: Option<Geometry>,
                             maxfeatures: Option<int>, priorityfield: Option<string>,
                             properties: Option<seq<string>>)

  // ---------------------------------------------------------------- selection

  /** The records left after the optional intersects filter. */
  function Filtered(rs: seq<Record>, extent: Option<Geometry>, geos: Geos): seq<Record>
  {
    if extent.Some? then Intersecting(rs, extent.value, geos.intersects) else rs
  }

  /** `queryset[:n]`; Django refuses a negative bound with an assertion. */
  function Limit(rs: seq<Record>, n: int): (r: Result<seq<Record>>)
    ensures r.Err? <==> n < 0
    ensures r.Err? ==> r.error == AssertionError
    ensures r.Ok? ==> r.value <= rs && |r.value| == (if n < |rs| then n else |rs|)
  {
    if n < 0 then Err(AssertionError) else if n < |rs| then Ok(rs[..n]) else Ok(rs)
  }

  /** The records the collection is built from, as the code is evidently
      meant to select them: a `maxfeatures` bound needs a `priorityfield`,
      and at most that many of the filtered records are kept, in order.
      The `order_by` call's result is discarded by the code, so no ordering
      takes place. */
  function Select(rs: seq<Record>, opts: Options, geos: Geos): (r: Result<seq<Record>>)
    ensures opts.maxfeatures.None? ==> r == Ok(Filtered(rs, opts.extent, geos))
    ensures opts.maxfeatures.Some? && opts.priorityfield.None? ==> r == Err(RuntimeError)
    ensures opts.maxfeatures.Some? && opts.priorityfield.Some? ==>
              (r.Ok? <==> opts.maxfeatures.value >= 0) &&
              (r.Ok? ==> r.value <= Filtered(rs, opts.extent, geos) &&
                         |r.value| == MinInt(opts.maxfeatures.value, |Filtered(rs, opts.extent, geos)|))
  {
    var filtered := Filtered(rs, opts.extent, geos);
    if opts.maxfeatures.None? then Ok(filtered)
    else if opts.priorityfield.None? then Err(RuntimeError)
    else Limit(filtered, opts.maxfeatures.value)
  }

  function MinInt(a: int, b: int): int { if a < b then a else b }

  /** The selection as written: the `order_by` argument is the undefined
      name `priority_field`, so every call that passes both `maxfeatures`
      and `priorityfield` raises NameError before any record is taken. */
  function SelectAsWritten(rs: seq<Record>, opts: Options, geos: Geos): Result<seq<Record>>
  {
    var filtered := Filtered(rs, opts.extent, geos);
    if opts.maxfeatures.None? then Ok(filtered)
    else if opts.priorityfield.None? then Err(RuntimeError)
    else Err(NameError("priority_field"))
  }

  /** With `maxfeatures` set the code as written never yields a selection,
      whereas the intended selection exists for every non-negative bound. */
  lemma MaxFeaturesNeverHonoured(rs: seq<Record>, opts: Options, geos: Geos)
    ensures opts.maxfeatures.Some? ==> SelectAsWritten(rs, opts, geos).Err?
    ensures opts.maxfeatures.Some? && opts.priorityfield.Some? && opts.maxfeatures.value >= 0 ==>
              SelectAsWritten(rs, opts, geos) == Err(NameError("priority_field")) &&
              Select(rs, opts, geos).Ok?
    ensures opts.maxfeatures.None? ==> SelectAsWritten(rs, opts, geos) == Select(rs, opts, geos)
  {
  }

  // ---------------------------------------------------------------- properties

  /** The properties loop from the `i`-th name on, starting from `acc`:
      the geometry field is skipped, a missing attribute raises
      AttributeError, every other value is rendered. */
  function AddProperties(item: Record, names: seq<string>, geomField: string,
                         acc: map<string, JsonScalar>): Result<map<string, JsonScalar>>
    decreases |names|
  {
    if names == [] then Ok(acc)
    else if names[0] == geomField then AddProperties(item, names[1..], geomField, acc)
    else if names[0] !in item.attrs then Err(AttributeError(names[0]))
    else AddProperties(item, names[1..], geomField, acc[names[0] := SimpleRenderToJson(item.attrs[names[0]])])
  }

  /** A feature's `properties` for the listed names. */
  function PropertiesOf(item: Record, names: seq<string>, geomField: string): Result<map<string, JsonScalar>>
  {
    AddProperties(item, names, geomField, map[])
  }

  lemma {:induction false} AddPropertiesMeaning(item: Record, names: seq<string>, geomField: string,
                                                acc: map<string, JsonScalar>)
    ensures var r := AddProperties(item, names, geomField, acc);
            (r.Ok? <==> forall k :: 0 <= k < |names| && names[k] != geomField ==> names[k] in item.attrs) &&
            (r.Ok? ==> (forall n :: n in r.value ==> n in acc || n in names) &&
                       (forall k :: 0 <= k < |names| && names[k] != geomField ==>
                          names[k] in r.value && names[k] in item.attrs &&
                          r.value[names[k]] == SimpleRenderToJson(item.attrs[names[k]])) &&
                       (forall n :: n in acc && n !in names ==> n in r.value && r.value[n] == acc[n])) &&
            (r.Err? ==> exists k :: 0 <= k < |names| && names[k] != geomField && names[k] !in item.attrs &&
                                    r.error == AttributeError(names[k]))
    decreases |names|
  {
    if names != [] {
      var n := names[0];
      var rest := names[1..];
      assert forall k :: 1 <= k < |names| ==> names[k] == rest[k - 1];
      if n == geomField {
        AddPropertiesMeaning(item, rest, geomField, acc);
      } else if n !in item.attrs {
      } else {
        var acc' := acc[n := SimpleRenderToJson(item.attrs[n])];
        AddPropertiesMeaning(item, rest, geomField, acc');
        var r := AddProperties(item, names, geomField, acc);
        if r.Ok? {
          assert n in rest ==> exists k :: 0 <= k < |rest| && rest[k] == n;
        }
      }
    }
  }

  /** A feature's properties hold exactly the listed names other than the
      geometry field, each with its rendered attribute value; they exist
      exactly when every such name is an attribute of the record, and the
      code raises AttributeError for a name that is not. */
  lemma PropertiesOfMeaning(item: Record, names: seq<string>, geomField: string)
    ensures var r := PropertiesOf(item, names, geomField);
            (r.Ok? <==> forall k :: 0 <= k < |names| && names[k] != geomField ==> names[k] in item.attrs) &&
            (r.Ok? ==> (forall n :: n in r.value <==> n in names && n != geomField) &&
                       (forall n :: n in r.value ==> n in item.attrs && r.value[n] == SimpleRenderToJson(item.attrs[n]))) &&
            (r.Err? ==> exists k :: 0 <= k < |names| && names[k] != geomField && names[k] !in item.attrs &&
                                    r.error == AttributeError(names[k]))
  {
    AddPropertiesMeaning(item, names, geomField, map[]);
    AddPropertiesSkipsGeometry(item, names, geomField, map[]);
    var r := PropertiesOf(item, names, geomField);
    if r.Ok? {
      forall n | n in r.value
        ensures n in names && n != geomField && n in item.attrs && r.value[n] == SimpleRenderToJson(item.attrs[n])
      {
        var k :| 0 <= k < |names| && names[k] == n;
      }
    }
  }

  /** The geometry field never becomes a property unless it already was one. */
  lemma {:induction false} AddPropertiesSkipsGeometry(item: Record, names: seq<string>, geomField: string,
                                                      acc: map<string, JsonScalar>)
    requires geomField !in acc
    ensures AddProperties(item, names, geomField, acc).Ok? ==> geomField !in AddProperties(item, names, geomField, acc).value
    decreases |names|
  {
    if names != [] {
      if names[0] == geomField {
        AddPropertiesSkipsGeometry(item, names[1..], geomField, acc);
      } else if names[0] in item.attrs {
        AddPropertiesSkipsGeometry(item, names[1..], geomField, acc[names[0] := SimpleRenderToJson(item.attrs[names[0]])]);
      }
    }
  }

  /** The inner `for fname in properties` loop. */
  method BuildProperties(item: Record, names: seq<string>, geomField: string)
    returns (r: Result<map<string, JsonScalar>>)
    ensures r == PropertiesOf(item, names, geomField)
  {
    var props: map<string, JsonScalar> := map[];
    for i := 0 to |names|
      invariant PropertiesOf(item, names, geomField) == AddProperties(item, names[i..], geomField, props)
    {
      var n := names[i];
      assert names[i..][0] == n && names[i..][1..] == names[i + 1..];
      if n != geomField {
        if n !in item.attrs {
          return Err(AttributeError(n));
        }
        props := props[n := SimpleRenderToJson(item.attrs[n])];
      }
    }
    return Ok(props);
  }

  // ---------------------------------------------------------------- features

  function FeatureOf(item: Record, props: map<string, JsonScalar>, simplify: Option<real>, geos: Geos): Feature
  {
    Feature(FeatureType, item.pk, props, if simplify.Some? then geos.simplify(item.geom, simplify.value) else item.geom)
  }

  /** The `for item in queryset` loop from the first record of `items` on,
      appending to `acc`. */
  function AddFeatures(items: seq<Record>, names: seq<string>, geomField: string, simplify: Option<real>,
                       geos: Geos, acc: seq<Feature>): Result<seq<Feature>>
    decreases |items|
  {
    if items == [] then Ok(acc)
    else
      var props := PropertiesOf(items[0], names, geomField);
      if props.Err? then Err(props.error)
      else AddFeatures(items[1..], names, geomField, simplify, geos, acc + [FeatureOf(items[0], props.value, simplify, geos)])
  }

  function FeaturesOf(items: seq<Record>, names: seq<string>, geomField: string, simplify: Option<real>,
                      geos: Geos): Result<seq<Feature>>
  {
    AddFeatures(items, names, geomField, simplify, geos, [])
  }

  lemma {:induction false} AddFeaturesMeaning(items: seq<Record>, names: seq<string>, geomField: string,
                                              simplify: Option<real>, geos: Geos, acc: seq<Feature>)
    ensures var r := AddFeatures(items, names, geomField, simplify, geos, acc);
            (r.Ok? <==> forall i :: 0 <= i < |items| ==> PropertiesOf(items[i], names, geomField).Ok?) &&
            (r.Ok? ==> |r.value| == |acc| + |items| && r.value[..|acc|] == acc &&
                       forall i :: 0 <= i < |items| ==>
                         r.value[|acc| + i] == FeatureOf(items[i], PropertiesOf(items[i], names, geomField).value, simplify, geos)) &&
            (r.Err? ==> exists i :: 0 <= i < |items| && PropertiesOf(items[i], names, geomField) == Err(r.error))
    decreases |items|
  {
    if items != [] {
      var props := PropertiesOf(items[0], names, geomField);
      if props.Ok? {
        var acc' := acc + [FeatureOf(items[0], props.value, simplify, geos)];
        AddFeaturesMeaning(items[1..], names, geomField, simplify, geos, acc');
        var r := AddFeatures(items, names, geomField, simplify, geos, acc);
        assert forall i :: 1 <= i < |items| ==> items[i] == items[1..][i - 1];
        if r.Ok? {
          assert r.value[..|acc'|][..|acc|] == r.value[..|acc|];
          forall i | 0 <= i < |items|
            ensures r.value[|acc| + i] == FeatureOf(items[i], PropertiesOf(items[i], names, geomField).value, simplify, geos)
          {
            if i == 0 {
              assert r.value[|acc|] == r.value[..|acc'|][|acc|];
            } else {
              assert r.value[|acc'| + (i - 1)] == FeatureOf(items[1..][i - 1], PropertiesOf(items[1..][i - 1], names, geomField).value, simplify, geos);
            }
          }
        } else {
          var i :| 0 <= i < |items[1..]| && PropertiesOf(items[1..][i], names, geomField) == Err(r.error);
          assert items[i + 1] == items[1..][i];
        }
      }
    }
  }

  /** One feature per record, in order: each carries the record's primary
      key, its properties and its (optionally simplified) geometry; the
      features exist exactly when every record's properties do. */
  lemma FeaturesOfMeaning(items: seq<Record>, names: seq<string>, geomField: string, simplify: Option<real>, geos: Geos)
    ensures var r := FeaturesOf(items, names, geomField, simplify, geos);
            (r.Ok? <==> forall i :: 0 <= i < |items| ==> PropertiesOf(items[i], names, geomField).Ok?) &&
            (r.Ok? ==> |r.value| == |items| &&
                       forall i :: 0 <= i < |items| ==>
                         r.value[i].typ == FeatureType && r.value[i].id == items[i].pk &&
                         r.value[i].properties == PropertiesOf(items[i], names, geomField).value &&
                         r.value[i].geometry == (if simplify.Some? then geos.simplify(items[i].geom, simplify.value) else items[i].geom)) &&
            (r.Err? ==> exists i :: 0 <= i < |items| && PropertiesOf(items[i], names, geomField) == Err(r.error))
  {
    AddFeaturesMeaning(items, names, geomField, simplify, geos, []);
    var r := FeaturesOf(items, names, geomField, simplify, geos);
    if r.Ok? {
      forall i | 0 <= i < |items|
        ensures r.value[i] == FeatureOf(items[i], PropertiesOf(items[i], names, geomField).value, simplify, geos)
      {
        assert r.value[0 + i] == r.value[i];
      }
    }
  }

  /** The outer `for item in queryset` loop. */
  method BuildFeatures(items: seq<Record>, names: seq<string>, geomField: string, simplify: Option<real>, geos: Geos)
    returns (r: Result<seq<Feature>>)
    ensures r == FeaturesOf(items, names, geomField, simplify, geos)
  {
    var features: seq<Feature> := [];
    for i := 0 to |items|
      invariant FeaturesOf(items, names, geomField, simplify, geos) ==
                AddFeatures(items[i..], names, geomField, simplify, geos, features)
    {
      var item := items[i];
      assert items[i..][0] == item && items[i..][1..] == items[i + 1..];
      var props := BuildProperties(item, names, geomField);
      if props.Err? {
        return Err(props.error);
      }
      features := features + [FeatureOf(item, props.value, simplify, geos)];
    }
    return Ok(features);
  }

  // ---------------------------------------------------------------- projection

  /** The SRID of the first selected record's geometry, if there is one. */
  function SourceSrid(rs: seq<Record>): Option<int>
  {
    if |rs| > 0 then rs[0].geom.srid else None
  }

  /** The projection the document is written in: the requested one, else
      the source's. */
  function OutputSrid(projection: Option<int>, src: Option<int>): Option<int>
  {
    if projection.Some? then projection else src
  }

  predicate Reprojects(out: Option<int>, src: Option<int>)
  {
    out.Some? && src != out
  }

  /** `queryset.transform(srid)`: every geometry reprojected by the database. */
  function Reprojected(rs: seq<Record>, srid: int, geos: Geos): seq<Record>
  {
    seq(|rs|, i requires 0 <= i < |rs| => rs[i].(geom := geos.transform(rs[i].geom, srid)))
  }

  /** `GEOSGeometry.transform(srid)` as Django releases that still ship
      `django.utils.simplejson` do it: nothing changes when the geometry
      already has that SRID, or has none (Django only warns then). */
  function TransformGeometry(g: Geometry, srid: int, geos: Geos): Geometry
  {
    if g.srid.None? || g.srid == Some(srid) then g else geos.transform(g, srid)
  }

  /** The `bbox` of a reprojected collection: the source extent as a box
      polygon in the source SRID, reprojected, and its own extent taken. */
  function ReprojectedBox(e: Envelope, src: Option<int>, out: int, geos: Geos): Envelope
  {
    EnvelopeOf(TransformGeometry(BoxPolygon(e, src), out, geos).coords)
  }

  /** An extent is a proper envelope. */
  lemma ExtentIsProper(rs: seq<Record>)
    requires |rs| > 0
    ensures Extent(rs).xmin <= Extent(rs).xmax && Extent(rs).ymin <= Extent(rs).ymax
  {
  }

  /** When the box polygon is not actually moved, its reprojected extent is
      the source extent itself. */
  lemma ReprojectedBoxUnmoved(rs: seq<Record>, src: Option<int>, out: int, geos: Geos)
    requires |rs| > 0 && (src.None? || src == Some(out))
    ensures ReprojectedBox(Extent(rs), src, out, geos) == Extent(rs)
  {
    ExtentIsProper(rs);
    BoxPolygonExtent(Extent(rs), src);
  }

  /** The names `properties` defaults to: the model's concrete fields. */
  function FieldNames(fields: seq<Field>): (names: seq<string>)
    ensures |names| == |fields| && forall i :: 0 <= i < |fields| ==> names[i] == fields[i].name
  {
    seq(|fields|, i requires 0 <= i < |fields| => fields[i].name)
  }

  function PropertyNames(opts: Options, schema: Schema): seq<string>
  {
    if opts.properties.Some? then opts.properties.value else FieldNames(schema.fields)
  }

  // ---------------------------------------------------------------- render

  /** `render_to_geojson` with the intended selection (see `Select`). */
  method RenderToGeoJson(qs: QuerySet, opts: Options, geos: Geos) returns (r: Result<FeatureCollection>)
    ensures Lookup.GeomFieldName(qs.schema.fields).None? ==> r == Err(ValueError)
    ensures Lookup.GeomFieldName(qs.schema.fields).Some? && opts.maxfeatures.Some? && opts.priorityfield.None? ==>
              r == Err(RuntimeError)
    ensures var geomField := Lookup.GeomFieldName(qs.schema.fields);
            var sel := Select(qs.records, opts, geos);
            r.Ok? <==> geomField.Some? && sel.Ok? &&
                       forall i :: 0 <= i < |sel.value| ==>
                         PropertiesOf(sel.value[i], PropertyNames(opts, qs.schema), geomField.value).Ok?
    ensures r.Ok? ==>
              var geomField := Lookup.GeomFieldName(qs.schema.fields).value;
              var sel := Select(qs.records, opts, geos).value;
              var src := SourceSrid(sel);
              var out := OutputSrid(opts.projection, src);
              var fc := r.value;
              fc.typ == FeatureCollectionType &&
              |fc.features| == |sel| &&
              (forall i :: 0 <= i < |sel| ==>
                 var g := if Reprojects(out, src) then geos.transform(sel[i].geom, out.value) else sel[i].geom;
                 fc.features[i].typ == FeatureType && fc.features[i].id == sel[i].pk &&
                 fc.features[i].properties == PropertiesOf(sel[i], PropertyNames(opts, qs.schema), geomField).value &&
                 fc.features[i].geometry == (if opts.simplify.Some? then geos.simplify(g, opts.simplify.value) else g)) &&
              (fc.crs.Some? <==> src.Some?) && (fc.srid.Some? <==> src.Some?) &&
              (src.Some? ==> fc.srid == out && fc.crs == Some(CrsFor(out.value))) &&
              (fc.bbox.Some? <==> |sel| > 0) &&
              (|sel| > 0 && !Reprojects(out, src) ==> fc.bbox == Some(Extent(sel))) &&
              (|sel| > 0 && Reprojects(out, src) ==> fc.bbox == Some(ReprojectedBox(Extent(sel), src, out.value, geos))) &&
              (|sel| > 0 && !Reprojects(out, src) && opts.simplify.None? ==>
                 forall i, j :: 0 <= i < |sel| && 0 <= j < |fc.features[i].geometry.coords| ==>
                   Covers(fc.bbox.value, fc.features[i].geometry.coords[j]))
  {
    var found := Lookup.FindGeomField(qs.schema.fields);
    if found.Err? {
      return Err(found.error);
    }
    var geomField := found.value;
    var selected := Select(qs.records, opts, geos);
    if selected.Err? {
      return Err(selected.error);
    }
    var sel := selected.value;
    var src := SourceSrid(sel);
    var out := OutputSrid(opts.projection, src);
    var items := if Reprojects(out, src) then Reprojected(sel, out.value, geos) else sel;
    var names := PropertyNames(opts, qs.schema);
    var features := BuildFeatures(items, names, geomField, opts.simplify, geos);
    FeaturesOfMeaning(items, names, geomField, opts.simplify, geos);
    assert forall i :: 0 <= i < |sel| ==> items[i].attrs == sel[i].attrs && items[i].pk == sel[i].pk;
    assert forall i :: 0 <= i < |sel| ==> PropertiesOf(items[i], names, geomField) == PropertiesOf(sel[i], names, geomField) by {
      forall i | 0 <= i < |sel| ensures PropertiesOf(items[i], names, geomField) == PropertiesOf(sel[i], names, geomField) {
        PropertiesIgnoreGeometry(items[i], sel[i], names, geomField, map[]);
      }
    }
    if features.Err? {
      return Err(features.error);
    }
    if |sel| > 0 && !Reprojects(out, src) {
      forall i, j | 0 <= i < |sel| && 0 <= j < |sel[i].geom.coords|
        ensures Covers(Extent(sel), sel[i].geom.coords[j])
      {
        ExtentCovers(sel, i, j);
      }
    }
    var crs := if src.Some? then Some(CrsFor(out.value)) else None;
    var srid := if src.Some? then out else None;
    var bbox := if |sel| == 0 then None
                else if Reprojects(out, src) then Some(ReprojectedBox(Extent(sel), src, out.value, geos))
                else Some(Extent(sel));
    return Ok(FeatureCollection(FeatureCollectionType, features.value, crs, srid, bbox));
  }

  /** Properties depend on a record's attributes only, not on its geometry. */
  lemma {:induction false} PropertiesIgnoreGeometry(a: Record, b: Record, names: seq<string>, geomField: string,
                                                    acc: map<string, JsonScalar>)
    requires a.attrs == b.attrs
    ensures AddProperties(a, names, geomField, acc) == AddProperties(b, names, geomField, acc)
    decreases |names|
  {
    if names != [] {
      PropertiesIgnoreGeometry(a, b, names[1..], geomField, acc);
      if names[0] in a.attrs {
        PropertiesIgnoreGeometry(a, b, names[1..], geomField, acc[names[0] := SimpleRenderToJson(a.attrs[names[0]])]);
      }
    }
  }
}
