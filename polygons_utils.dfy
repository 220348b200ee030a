/** polygons/utils.py: the conversion from validated geometry data to a
    stored geometry, and the JSON shape in which a stored geometry is sent
    back. */
module PolygonUtils {
  import opened Json

  type Position = seq<int>
  type Ring = seq<Position>
  type Coordinates = seq<Ring>

  /** The validated data of a geometry: its `type` and its `coordinates`. */
  datatype GeometryData = GeometryData(geometryType: string, coordinates: Coordinates)

  /** The GeoJSON type name of a polygon geometry. */
  const PolygonType := "Polygon"

  /** The spatial reference every stored polygon is bound to (WGS 84). */
  const Wgs84Srid: int := 4326

  /** A GEOS geometry. Its construction from the text of the data belongs
      to a foreign library, so the value only records what it was built
      from and the spatial reference it was given. */
  datatype GeosGeometry = GeosGeometry(source: GeometryData, srid: int)

  /** get_polygon_obj: builds the geometry from a copy of the data (the
      caller's data is left as it was) and always under SRID 4326. */
  function GetPolygonObj(polygonData: GeometryData): (g: GeosGeometry)
    ensures g.srid == Wgs84Srid
    ensures g.source == polygonData
  {
    GeosGeometry(polygonData, Wgs84Srid)
  }

  /** build_geometry_json_response: a GeoJSON object of type "Polygon"
      whose coordinates are exactly the ones given, and nothing else. */
  function BuildGeometryJsonResponse(coords: Json): (r: map<string, Json>)
    ensures r.Keys == {"type", "coordinates"}
    ensures r["type"] == JStr(PolygonType)
    ensures r["coordinates"] == coords
  {
    map["type" := JStr(PolygonType), "coordinates" := coords]
  }
}
