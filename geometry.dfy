/**
 The geometry the dashboard hands to the map library: `[longitude, latitude]` pairs,
 the zoom level derived from the station–satellite distance, the geofence circle
 around the ground station and the two-point satellite line. The polygon that
 turf.circle builds and the haversine distance of turf.distance are not computed
 here: a circle is the request (centre, radius in kilometres) and the distance is
 supplied by the caller.
 */
module Geometry {
  import opened Coordinates

  /** A `[longitude, latitude]` array as passed to Mapbox and turf. */
  datatype LngLat = LngLat(lng: Field, lat: Field)

  /** The `[c.longitude, c.latitude]` pair of a slot. */
  function Position(c: Coords): LngLat {
    LngLat(c.longitude, c.latitude)
  }

  /** The zoom the map is created with, and the upper end of the distance-based zoom. */
  const InitialZoom: real := 13.0
  /** The lower bound of the distance-based zoom. */
  const MinZoom: real := 5.0

  /** `Math.max(13 - distance / 10, 5)` for a distance in kilometres. */
  function ZoomLevel(distanceKm: real): (z: real)
    ensures MinZoom <= z
    ensures 0.0 <= distanceKm ==> z <= InitialZoom
    ensures distanceKm == 0.0 ==> z == InitialZoom
    ensures distanceKm <= 80.0 ==> z == InitialZoom - distanceKm / 10.0
    ensures 80.0 <= distanceKm ==> z == MinZoom
  {
    var linear := InitialZoom - distanceKm / 10.0;
    if linear < MinZoom then MinZoom else linear
  }

  /** The further apart the station and the satellite, the further out the view. */
  lemma ZoomNonIncreasing(d1: real, d2: real)
    requires d1 <= d2
    ensures ZoomLevel(d1) >= ZoomLevel(d2)
  {
  }

  /** `turf.circle(center, radiusKm, { units: "kilometers" })`: the polygon itself is
      left to the library. */
  datatype Circle = Circle(center: LngLat, radiusKm: real)

  /** The geofence around the ground station for a radius in metres. */
  function Geofence(station: Coords, radiusMeters: real): (c: Circle)
    ensures c.center == Position(station)
    ensures c.radiusKm * 1000.0 == radiusMeters
  {
    Circle(Position(station), radiusMeters / 1000.0)
  }

  /** `turf.lineString(points)`. */
  datatype Line = LineString(points: seq<LngLat>)

  /** The line joining two satellite positions, oldest first. */
  function Segment(from: Coords, to: Coords): (l: Line)
    ensures |l.points| == 2
    ensures l.points[0] == Position(from) && l.points[1] == Position(to)
  {
    LineString([Position(from), Position(to)])
  }
}
