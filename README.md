# django-geoshortcuts, modelled in Dafny

django-geoshortcuts turns GeoDjango querysets into two kinds of document:

- a GeoJSON `FeatureCollection`, built by `render_to_geojson`;
- a GPX 1.1 document, built by `render_to_gpx`, with its metadata parsed from a dictionary and with waypoints and routes decorated from model fields.

The package ships these functions twice:

- `geoshortcuts/geojson.py` and `geoshortcuts/gpx.py` hold the current code;
- `geoshortcuts/shortcuts.py` holds an older all-in-one version that behaves differently in several places.

This project models both versions. Their outputs are document datatypes, not text.

The model is built from these pieces:

- A record (`Geometry.Record`) is a primary key, one geometry and a map from attribute names to Python values (`Values.Value`).
- A queryset is a model schema plus its records in iteration order.
- The GEOS and database operations are parameters of type `Geometry.Geos`: intersection test, reprojection and simplification.
- The CPython conversions the code cannot show are parameters of type `Values.Runtime`: numeric text parsing and float formatting.
- A Python exception is an `Err` carrying `Base.PyError`.

The modules are:

- `Base`: `Option`, `Result`, the Python exception kinds and `byte`.
- `Text`: decimal numerals, zero padding, ASCII and UTF-8 encodings, and `str.split` / `str.join`.
- `Values`: Python values, `date`/`datetime` and `isoformat`, and `str()`, `unicode()`, `float()` and `int()`.
- `Geometry`: coordinates, geometries, records, querysets, envelopes and extents, and GPX bounds over extended reals, with ±∞ as the identity of the min/max fold.
- `Lookup`: the geometry-field lookup that `geojson.py` and `gpx.py` import.
- `GeoJson`: `geojson.py`.
- `Gpx`: `gpx.py`.
- `Shortcuts`: the differences `shortcuts.py` introduces. Its metadata parsing and waypoint/route decoration are the same code as in `gpx.py`, so the model reuses the `Gpx` members for them.

Loops in the source are methods with loop invariants:

- the property loop, `GeoJson.BuildProperties`;
- the feature loop, `GeoJson.BuildFeatures`;
- the link loop, `Gpx.ParseLinks`;
- the decoration loop, `Gpx.Decorate`;
- the waypoint and route loops, `Gpx.BuildWaypoints` and `Gpx.BuildRoutes`;
- the field lookups, `Lookup.FindGeomField` and `Shortcuts.FindGeomField`.

Each method is proved equal to a specification function. Separate lemmas characterise that function in terms of the source's promises.

## Model

| member | source | states |
|---|---|---|
| Text.NatDigitsRoundTrip | geoshortcuts/geojson.py:81 | the decimal digits of a natural number read back as that number |
| Text.IntDecimalRoundTrip | geoshortcuts/geojson.py:81 | `str(i)` for an int (sign and digits) is a well-formed numeral whose value is `i` |
| Text.ZeroPad | geoshortcuts/gpx.py:84-85 | zero padding keeps only digits, keeps the value, is ASCII, and has width max(width, digit count) |
| Text.ZeroPadWidth | geoshortcuts/gpx.py:84-85 | a number below 10^width pads to exactly `width` characters |
| Text.AsciiRoundTrip | geoshortcuts/gpx.py:103-104 | the one-byte encoding of ASCII text decodes back to the same text |
| Text.Utf8OfAscii | geoshortcuts/geojson.py:30-31 | on ASCII text, UTF-8 is the one-byte-per-character encoding |
| Text.Utf8Length | geoshortcuts/geojson.py:30-31 | UTF-8 never shortens text, keeps its length iff the text is ASCII, and yields only ASCII bytes iff the text is ASCII |
| Text.Split | geoshortcuts/gpx.py:42 | `split` yields at least one piece, and no piece contains the separator |
| Text.SplitJoin | geoshortcuts/gpx.py:42-43 | joining the pieces of a split gives back the text, and there is one more piece than there are separators |
| Values.IsoFormatLength | geoshortcuts/gpx.py:84-85 | `isoformat()` is 19 characters long without microseconds and 26 with them |
| Values.TruncatedIsoFormat | geoshortcuts/gpx.py:84-85 | `replace(microsecond=0).isoformat()` is exactly the first 19 characters (to the second) of the full ISO form; truncation is idempotent |
| Values.StrOf | geoshortcuts/geojson.py:33 | Python 2 `str()` fails with UnicodeEncodeError iff given non-ASCII unicode; it keeps byte strings and encodes ASCII unicode |
| Values.UnicodeOf | geoshortcuts/gpx.py:103-104 | `unicode()` fails with UnicodeDecodeError iff given non-ASCII bytes, and keeps unicode text |
| Values.FloatOf | geoshortcuts/gpx.py:103-105 | `float()` succeeds on numbers, succeeds on text iff it parses (otherwise ValueError), and raises TypeError on anything else |
| Values.TruncateReal | geoshortcuts/gpx.py:98 | `int()` of a float truncates toward zero |
| Values.StrUnicodeRoundTrip | geoshortcuts/shortcuts.py:59 | on ASCII text, `unicode()` of the byte string `str()` makes gives back the text |
| Values.IntOf | geoshortcuts/gpx.py:98 | `int()` succeeds on numbers, succeeds on text iff it parses (otherwise ValueError), and raises TypeError on anything else |
| Geometry.EnvelopeOfIsTight | geoshortcuts/geojson.py:113 | the envelope of coordinates covers every coordinate, and each side is attained by some coordinate |
| Geometry.ExtentCovers | geoshortcuts/geojson.py:113 | the queryset extent covers every coordinate of every record |
| Geometry.BoxPolygon | geoshortcuts/geojson.py:108-109 | `Polygon.from_bbox` gives a polygon carrying the SRID it is assigned |
| Geometry.BoxPolygonExtent | geoshortcuts/geojson.py:108-111 | the extent of the corner polygon of a proper envelope is that envelope |
| Geometry.Intersecting | geoshortcuts/geojson.py:52-54 | the intersects filter keeps exactly the records whose geometry intersects the area, and no others |
| Geometry.IntersectingConcat | geoshortcuts/geojson.py:52-54 | filtering a concatenation is the concatenation of the filtered parts, so kept records stay in their original relative order |
| Geometry.Min | geoshortcuts/gpx.py:225-226 | `min` over extended reals is a lower bound of both arguments and is one of them |
| Geometry.Max | geoshortcuts/gpx.py:227-228 | `max` over extended reals is an upper bound of both arguments and is one of them |
| Geometry.CombineIdentity | geoshortcuts/gpx.py:221-228 | the (+∞, +∞, −∞, −∞) bounds are the identity of the bounds fold on both sides; the fold is commutative |
| Geometry.CombineWithin | geoshortcuts/gpx.py:221-228 | nothing lies within the empty bounds; a coordinate within either input lies within the combined bounds |
| Geometry.ExtentWithin | geoshortcuts/gpx.py:221-228 | every coordinate of a queryset lies within the bounds of its extent |
| Lookup.FirstGeometry | geoshortcuts/__init__.py:3-8 | returns the index of the first geometry field, or None iff no field is a geometry field |
| Lookup.FindGeomField | geoshortcuts/__init__.py:3-8 | returns the name of the first geometry field; raises ValueError iff there is none |
| GeoJson.SimpleRenderToJsonMeaning | geoshortcuts/geojson.py:26-33 | ints, floats, bools and byte strings come back unchanged; unicode becomes its UTF-8 bytes (ASCII iff the text is); anything else becomes a string; re-rendering a decoded scalar gives it back |
| GeoJson.HrefNamesSrid | geoshortcuts/geojson.py:81 | the crs href is the spatialreference.org prefix, then the SRID numeral, then `/`; the numeral reads back as the SRID |
| GeoJson.Limit | geoshortcuts/geojson.py:60 | slicing to `n` fails with AssertionError iff `n` is negative; otherwise it yields the prefix of length min(n, count) |
| GeoJson.Select | geoshortcuts/geojson.py:52-60 | without maxfeatures, the filtered records; maxfeatures without priorityfield raises RuntimeError; with both, at most maxfeatures filtered records, as a prefix |
| GeoJson.MaxFeaturesNeverHonoured | geoshortcuts/geojson.py:56-60 | as written, any maxfeatures raises (RuntimeError or NameError) where the corrected selection succeeds; without maxfeatures both agree |
| GeoJson.AddPropertiesMeaning | geoshortcuts/geojson.py:92-95 | the property loop adds exactly the listed names other than the geometry field, each mapped to its rendered attribute, and fails with AttributeError on the first missing attribute |
| GeoJson.PropertiesOfMeaning | geoshortcuts/geojson.py:91-95 | a feature's properties are exactly the listed non-geometry names, each mapped to its rendered value; the result is Ok iff every such name is an attribute, otherwise AttributeError names a missing one |
| GeoJson.AddPropertiesSkipsGeometry | geoshortcuts/geojson.py:93-94 | the geometry field is never among the properties |
| GeoJson.BuildProperties | geoshortcuts/geojson.py:91-95 | the property loop computes exactly the properties specified above |
| GeoJson.AddFeaturesMeaning | geoshortcuts/geojson.py:86-101 | the feature loop emits one feature per record, in order, with id = pk, type `Feature`, the record's properties and its (optionally simplified) geometry; it is Ok iff every record's properties are |
| GeoJson.FeaturesOfMeaning | geoshortcuts/geojson.py:86-101 | the same, for the whole queryset |
| GeoJson.BuildFeatures | geoshortcuts/geojson.py:86-101 | the feature loop computes exactly the features specified above |
| GeoJson.ExtentIsProper | geoshortcuts/geojson.py:106-113 | the extent of a non-empty queryset has min ≤ max on both axes |
| GeoJson.ReprojectedBoxUnmoved | geoshortcuts/geojson.py:107-113 | when the box has no SRID or is already in the output SRID, its reprojection is the extent itself |
| GeoJson.PropertiesIgnoreGeometry | geoshortcuts/geojson.py:69-70 | reprojecting the queryset does not change any feature's properties |
| GeoJson.RenderToGeoJson | geoshortcuts/geojson.py:35-113 | ValueError without a geometry field; RuntimeError for maxfeatures without priorityfield; Ok iff the selection succeeds and every feature's properties do; type `FeatureCollection`; one feature per selected record (see above), reprojected only when the output SRID is given and differs from the source SRID; crs and srid present iff the source SRID is, both naming the output SRID; bbox present iff the selection is non-empty, equal to its extent when not reprojected and to the reprojected corner box otherwise; when neither reprojected nor simplified, it covers every feature coordinate |
| Gpx.LinkOf | geoshortcuts/gpx.py:46-51 | a link dict without `href` raises KeyError("href"); otherwise href, text and type are copied, with null and missing both giving None |
| Gpx.SplitEmail | geoshortcuts/gpx.py:42-43 | splitting an address at `@` succeeds iff it contains `@` (otherwise IndexError); neither the id nor the domain contains `@` |
| Gpx.EmailRoundTrip | geoshortcuts/gpx.py:42-43 | for an address with exactly one `@`, id + `@` + domain is the address |
| Gpx.EmailOf | geoshortcuts/gpx.py:41-45 | no email key gives None; a null or non-string email raises AttributeError("split"); a string is split at `@` |
| Gpx.AuthorOf | geoshortcuts/gpx.py:39-57 | the author parses iff its email and its link do; the email error comes first; name, email and link are carried over |
| Gpx.YearOf | geoshortcuts/gpx.py:66 | `.year` succeeds exactly on dates and datetimes, giving a year in 1..9999; otherwise AttributeError("year") |
| Gpx.CopyrightOf | geoshortcuts/gpx.py:63-70 | a copyright without `author` raises KeyError("author"); it parses iff the author is present and a given year is a date; author, year and license are carried over |
| Gpx.TimeText | geoshortcuts/gpx.py:84-85 | time text succeeds exactly on datetimes, giving the 19-character ISO form truncated to whole seconds; dates and strings raise TypeError |
| Gpx.LinksOf | geoshortcuts/gpx.py:73-82 | the intended link list: one link per dict, in order; it fails iff some dict has no href, with that dict's error |
| Gpx.LastLinkOf | geoshortcuts/gpx.py:73-82 | the link list as written: an empty list raises NameError; otherwise only the last dict's link is kept |
| Gpx.OnlyLastLinkKept | geoshortcuts/gpx.py:76-80 | with two or more links, the as-written list loses every link but the last, whereas the intended list keeps them all; an empty list fails as written and succeeds as intended |
| Gpx.ParseLinks | geoshortcuts/gpx.py:73-82 | the corrected link loop computes exactly the intended link list |
| Gpx.ParseLinksAsWritten | geoshortcuts/gpx.py:73-82 | the link loop as written computes the last-link-only list |
| Gpx.MetaOf | geoshortcuts/gpx.py:34-88 | metadata parses iff author, copyright, links and time do; an author error comes first, then a copyright error; name, desc and keywords are copied, the author and copyright hold their parsed values, the links are one per dict and the time is truncated to whole seconds |
| Gpx.ParseMeta | geoshortcuts/gpx.py:34-88 | the metadata parser computes exactly that metadata |
| Gpx.FieldByName | geoshortcuts/gpx.py:103-105 | a recognised GPX field name belongs to the field it names |
| Gpx.FieldNamesRoundTrip | geoshortcuts/gpx.py:103-105 | every GPX field is found again by its name |
| Gpx.PosInt | geoshortcuts/gpx.py:97-101 | the `sat`/`number` constructor succeeds iff `int()` does and is non-negative; a negative value raises ValueError; the result is that int |
| Gpx.Convert | geoshortcuts/gpx.py:94-105 | each GPX field applies its table constructor: time needs a datetime and yields 19 characters; decimals use `float()`; strings use `unicode()`; `sat`/`number` are non-negative ints |
| Gpx.Entry | geoshortcuts/gpx.py:106-112 | one mapping pair: a missing model attribute raises AttributeError; a null value is skipped; a GPX name not in the table raises KeyError; otherwise the converted value is set under that field |
| Gpx.AddDecorationsFails | geoshortcuts/gpx.py:106-112 | the decoration loop fails iff some pair fails, and then with that pair's error |
| Gpx.AddDecorationsKeeps | geoshortcuts/gpx.py:106-112 | every field in the result was already there or is set by some pair; a field that no pair names keeps its value |
| Gpx.AddDecorationsSets | geoshortcuts/gpx.py:106-112 | with distinct GPX names, each pair that yields a value leaves exactly that value in its field |
| Gpx.DecorationsMeaning | geoshortcuts/gpx.py:90-113 | with distinct GPX names, decoration succeeds iff every pair does, and the fields set are exactly those of the pairs with non-null values, each holding its converted value |
| Gpx.Decorate | geoshortcuts/gpx.py:90-136 | the decoration loop, shared by waypoints and routes, computes exactly those decorations |
| Gpx.WaypointOf | geoshortcuts/gpx.py:240-245 | a waypoint takes lon = x, lat = y and ele = z of the point plus its decorations; a non-point geometry raises AttributeError("get_x") |
| Gpx.RoutePoints | geoshortcuts/gpx.py:250-256 | route points are the line's coordinates, in order and number; all carry ele iff the first coordinate is 3-D; a 2-D point after a 3-D first one raises IndexError; a non-line raises TypeError |
| Gpx.RouteOf | geoshortcuts/gpx.py:250-258 | a route is its route points plus its decorations, and is Ok iff both are |
| Gpx.AddWaypointsMeaning | geoshortcuts/gpx.py:237-246 | the waypoint loop emits one waypoint per record, in order, and is Ok iff every record's waypoint is |
| Gpx.AddRoutesMeaning | geoshortcuts/gpx.py:247-259 | the route loop emits one route per record, in order, and is Ok iff every record's route is |
| Gpx.BuildWaypoints | geoshortcuts/gpx.py:237-246 | the waypoint loop yields exactly one waypoint per record, the i-th being that record's waypoint |
| Gpx.BuildRoutes | geoshortcuts/gpx.py:247-259 | the route loop yields exactly one route per record, the i-th being that record's route |
| Gpx.DocumentBounds | geoshortcuts/gpx.py:221-228 | every coordinate of either queryset lies within the combined bounds; with one queryset absent or empty, the bounds are exactly the other's extent (or empty) |
| Gpx.RenderToGpx | geoshortcuts/gpx.py:211-259 | ValueError when both querysets are None; Ok iff metadata, geometry lookups, waypoints and routes succeed; version 1.1 and the creator; metadata (parsed or empty) always carries the combined bounds; one waypoint per point record and one route per line record, each as specified above and each point within the bounds |
| Shortcuts.SimpleRenderToJson | geoshortcuts/shortcuts.py:54-59 | the older coercion fails with UnicodeEncodeError exactly on non-ASCII unicode text |
| Shortcuts.SimpleRenderToJsonAgrees | geoshortcuts/shortcuts.py:54-59 | where the older coercion succeeds it agrees with the current one; where it fails, the current one gives the UTF-8 bytes |
| Shortcuts.NonAsciiPropertyFails | geoshortcuts/shortcuts.py:59 | u"é" makes the older coercion raise; the current one renders bytes C3 A9 |
| Shortcuts.LastFieldLookup | geoshortcuts/shortcuts.py:61-68 | the lookup as written: no fields raises NameError; otherwise it succeeds iff the last field is a geometry field, with its name, and raises ValueError otherwise |
| Shortcuts.FindGeomField | geoshortcuts/shortcuts.py:61-68 | the lookup loop computes exactly that last-field result |
| Shortcuts.GeometryFieldMustBeLast | geoshortcuts/shortcuts.py:61-68 | success as written implies that a geometry field exists; a model with its geometry field first is refused as written and found by the intended lookup |
| Shortcuts.Select | geoshortcuts/shortcuts.py:81-87 | without maxfeatures, the filtered records; with it, AssertionError iff the limit is negative, otherwise the prefix of length min(limit, count) |
| Shortcuts.RenderToGeoJson | geoshortcuts/shortcuts.py:70-141 | ValueError without a geometry field; Ok iff the selection and every feature's properties succeed; one feature per record; reprojected whenever `transform` is given, even to the source SRID; default property names are all of the model's field names; crs and srid present iff the source SRID is, both naming `transform` or the source SRID; bbox present iff the selection is non-empty, equal to its extent without `transform` and to the reprojected corner box with it |
| Shortcuts.QuerySetBoundsAsWritten | geoshortcuts/shortcuts.py:336-339 | as written, a given but empty queryset raises TypeError; otherwise its bounds are those of the guarded version |
| Shortcuts.EmptyQuerySetFails | geoshortcuts/shortcuts.py:336-343 | with empty points and non-empty paths the older code raises, while the guarded fold gives exactly the paths' extent |
| Shortcuts.RenderToGpx | geoshortcuts/shortcuts.py:254-374 | ValueError when both querysets are None; TypeError when a given queryset is empty; otherwise Ok under the same conditions as the current renderer and with the same document: version, creator, metadata (parsed or empty) carrying the combined bounds, one waypoint per point and one route per line |

## Left out

- Text serialisation is not modelled: `simplejson.dumps` with or without `prettyprint`, the `.geojson` text of a geometry and its re-parsing, the XML export of the GPX document classes, the XML header and the `StringIO` buffer. The documents are datatypes. The GPX document classes in `geoshortcuts/gpx_parser` are not part of this model.
- Django querysets are not executed. A queryset is its records in iteration order. Under that reading:
  - `exists()` and `len() > 0` mean non-empty;
  - slicing is a prefix;
  - `extent()` is the min/max over the coordinates of the stored geometries;
  - `transform()` applies the `Geos.transform` parameter to each geometry.
- The result of `order_by` is discarded in both versions. The model therefore applies no ordering and claims none.
- GEOS operations are parameters of `Geometry.Geos`, not computed: intersection test, reprojection and Douglas–Peucker simplification. Reprojecting the corner polygon follows the GEOS binding of the Django versions that still ship `django.utils.simplejson`: a geometry without an SRID is left alone, and so is one already in the target SRID.
- IEEE floating point is not modelled. Coordinates and floats are `real`, and the `float('inf')` sentinels of the bounds are the `Geometry.ExtReal` infinities.
- Parsing numeric text for `int()` and `float()`, and `str()` of a float, come from CPython and are parameters of `Values.Runtime`.
- Objects that convert themselves through `__float__`, `__int__` or `__unicode__` (a `Decimal` field, say) are not modelled. `float()` and `int()` of such an opaque object raise TypeError, and the object has no `replace` or `split` method.
- Timezone-aware datetimes are not modelled: a datetime is naive, so its ISO form has no UTC offset.
- The `setdefault` calls of `__parse_meta` also insert None into the caller's dictionaries. That side effect is not modelled, because the input dictionary is a value here.
- A Python dict used as a GPX field mapping is a sequence of (GPX field, model field) pairs in its iteration order. `Gpx.DecorationsMeaning` requires its GPX names to be distinct, as dict keys are.
- Empty geometries are not modelled: every geometry has at least one coordinate. A point's waypoint uses that coordinate.
- Gpx.RoutePoints: a line whose first vertex is 3-D but a later one is 2-D is refused with IndexError. A GEOS line string gives all its vertices the same dimension, so the source cannot meet this case; it arises only because the model gives each coordinate its own optional `z`.
- Gpx.RoutePoints: any geometry other than a line string in the path queryset is rejected with TypeError. What the source would emit for a polygon depends on the XML export, which is not part of this model.
- `geoshortcuts/__init__.py`, imported by `geojson.py` and `gpx.py`, does not parse as Python: its line 6 is a conditional expression with no `else`. `Lookup` models the first-geometry-field lookup the function's docstring describes.
- GeoJson.RenderToGeoJson: selects records with the corrected `GeoJson.Select`. As written, any call passing both `maxfeatures` and `priorityfield` raises NameError at geoshortcuts/geojson.py:59; `GeoJson.SelectAsWritten` models that, and the first Findings row records it.
- Gpx.MetaOf: builds the metadata links with the corrected `Gpx.LinksOf`, keeping one link per dict. As written, geoshortcuts/gpx.py:76-80 keeps only the last link and raises NameError on an empty link list; `Gpx.LastLinkOf` models that, and the fourth Findings row records it.
- Gpx.ParseMeta: computes `Gpx.MetaOf`, so it also uses the corrected link loop (`Gpx.ParseLinks`), not the as-written one (`Gpx.ParseLinksAsWritten`).
- Gpx.RenderToGpx: parses metadata with `Gpx.ParseMeta`, so it succeeds on an empty link list and keeps every link, where geoshortcuts/gpx.py:76-80 raises NameError or keeps only the last.
- Shortcuts.RenderToGpx: calls `Gpx.RenderToGpx` after its own bounds step, so the same corrected link loop applies to geoshortcuts/shortcuts.py:191-195.
- A NULL geometry column is not modelled: every record has a geometry. For such a row the source's attribute is None, and the following `.srid`, `.geojson` or `.get_x()` raises AttributeError (geoshortcuts/geojson.py:64 and 97-100, geoshortcuts/gpx.py:241).
- Gpx.Entry: the attribute map holds only the non-geometry attributes, so a GPX mapping pair naming the geometry field raises AttributeError, whereas the source would pass the geometry object to the field's constructor.
- Shortcuts.RenderToGeoJson and Shortcuts.RenderToGpx use the corrected geometry-field lookup (`Lookup.FindGeomField`) instead of the older last-field lookup. Shortcuts.RenderToGeoJson also uses the corrected coercion (`GeoJson.SimpleRenderToJson`). Both corrections are recorded under Findings.
- The duplicated `__parse_meta`, `__decorate_waypoint` and `__decorate_route` in `shortcuts.py` (lines 149-251) match those of `gpx.py`. They are modelled once, by the `Gpx` members, which is why `Shortcuts.RenderToGpx` calls `Gpx.RenderToGpx` after its own bounds step.

## Findings

| source | as written | input that shows it | evidently intended | confidence | as-written member | corrected member |
|---|---|---|---|---|---|---|
| geoshortcuts/geojson.py:56-60 | the ordering step names `priority_field`, a variable that does not exist, instead of the parameter `priorityfield` | `maxfeatures=10, priorityfield="rank"` raises NameError, so maxfeatures can never be used | order by the priority field and keep the first `maxfeatures` records | not executed; high | GeoJson.SelectAsWritten, GeoJson.MaxFeaturesNeverHonoured | GeoJson.Select, used by GeoJson.RenderToGeoJson |
| geoshortcuts/shortcuts.py:61-68 | the loop reassigns the result for every field, so only the last field decides; with no fields the name is never bound | a model whose fields are a geometry field `geom` followed by a text field `name` raises ValueError | the name of the (first) geometry field, ValueError only when there is none | not executed; high | Shortcuts.LastFieldLookup, Shortcuts.FindGeomField, Shortcuts.GeometryFieldMustBeLast | Lookup.FindGeomField |
| geoshortcuts/shortcuts.py:54-59 | unicode property values go through Python 2 `str()` | a property holding u"é" raises UnicodeEncodeError | UTF-8 bytes, as the current coercion at geoshortcuts/geojson.py:30-31 produces | not executed; high | Shortcuts.SimpleRenderToJson, Shortcuts.NonAsciiPropertyFails | GeoJson.SimpleRenderToJson |
| geoshortcuts/gpx.py:76-80 | the append of each link sits after the loop instead of inside it (the same lines recur at geoshortcuts/shortcuts.py:191-195) | two link dicts yield only the second link; an empty list raises NameError | one link per dict, in order | not executed; high | Gpx.LastLinkOf, Gpx.ParseLinksAsWritten, Gpx.OnlyLastLinkKept | Gpx.LinksOf, Gpx.ParseLinks, used by Gpx.MetaOf, Gpx.ParseMeta, Gpx.RenderToGpx and Shortcuts.RenderToGpx |
| geoshortcuts/shortcuts.py:336-339 | a given queryset's `extent()` is indexed without checking that the queryset is non-empty | an empty point queryset next to a non-empty path queryset: the extent is None and indexing it raises TypeError | empty bounds for an empty queryset, as the guard at geoshortcuts/gpx.py:221-224 gives | not executed; medium (depends on the database returning no extent for an empty set) | Shortcuts.QuerySetBoundsAsWritten, Shortcuts.EmptyQuerySetFails, Shortcuts.RenderToGpx | Gpx.QuerySetBounds, Gpx.RenderToGpx |
