/** Finding a model's geometry field, as the package-level
    `find_geom_field` documents it: the first geometry field among the
    model's fields, or ValueError when there is none. */
module Lookup {
  import opened Base
  import opened Geometry

  /** The position of the first geometry field, if any. */
  function FirstGeometry(fields: seq<Field>): (r: Option<nat>)
    ensures r.Some? ==> r.value < |fields| && fields[r.value].isGeometry &&
                        forall j :: 0 <= j < r.value ==> !fields[j].isGeometry
    ensures r.None? ==> forall j :: 0 <= j < |fields| ==> !fields[j].isGeometry
  {
    if fields == [] then None
    else if fields[0].isGeometry then Some(0)
    else
      var r := FirstGeometry(fields[1..]);
      assert forall j :: 1 <= j < |fields| ==> fields[j] == fields[1..][j - 1];
      if r.Some? then Some(r.value + 1) else None
  }

  /** The name of the first geometry field, if any. */
  function GeomFieldName(fields: seq<Field>): Option<string>
  {
    var k := FirstGeometry(fields);
    if k.Some? then Some(fields[k.value].name) else None
  }

  /** Scans the fields in declaration order and returns the first geometry
      field's name; raises ValueError when no field holds a geometry. */
  method FindGeomField(fields: seq<Field>) returns (r: Result<string>)
    ensures (exists j :: 0 <= j < |fields| && fields[j].isGeometry) ==>
              r.Ok? && exists j :: 0 <= j < |fields| && fields[j].isGeometry && fields[j].name == r.value &&
                                   forall k :: 0 <= k < j ==> !fields[k].isGeometry
    ensures (forall j :: 0 <= j < |fields| ==> !fields[j].isGeometry) ==> r == Err(ValueError)
    ensures r.Ok? ==> GeomFieldName(fields) == Some(r.value)
    ensures r.Err? ==> GeomFieldName(fields) == None && r.error == ValueError
  {
    for i := 0 to |fields|
      invariant forall j :: 0 <= j < i ==> !fields[j].isGeometry
    {
      if fields[i].isGeometry {
        return Ok(fields[i].name);
      }
    }
    return Err(ValueError);
  }
}
