/**
 The tracking dashboard component: its six state slots as the fields of a class,
 the fetch handlers, the readiness effect with map initialisation, the map's "load"
 listener, the radius handler and the satellite-update effect as methods, and the
 choice of what to render as a function. The Mapbox map is represented by the
 record of what it shows (`MapState`).
 */
module Dashboard {
  import opened Wrappers
  import opened Coordinates
  import opened Geometry
  import opened Track

  /** The radius slot's initial value, in metres. */
  const DefaultRadius: real := 1000.0

  /** What a Mapbox map created by the component shows. `startZoom` is the zoom it is
      created with and `zoom` the level the distance-based `zoomTo` moves it to;
      `loadCircle` is the geofence the "load" listener will add, `circle` the data of
      the "circle" source (None until "load" fired) and `line` the data of
      "line-source" (None until a satellite line was drawn). */
  datatype MapState = MapState(
    center: LngLat,
    startZoom: real,
    zoom: real,
    stationMarker: LngLat,
    loadCircle: Circle,
    circle: Option<Circle>,
    line: Option<Line>)

  /** The map `initMap` builds from the slots, the radius and `turf.distance`. */
  function NewMap(station: Coords, satellite: Coords, radius: real,
                  distance: (LngLat, LngLat) -> real): MapState
  {
    MapState(Position(station), InitialZoom,
             ZoomLevel(distance(Position(station), Position(satellite))),
             Position(station), Geofence(station, radius), None, None)
  }

  /** A new map is centred on the ground station at zoom 13 and is then zoomed out to a
      level between 5 and 13 (turf.distance never returns a negative distance); its
      geofence is centred on the station too, and it has no line yet. */
  lemma NewMapView(station: Coords, satellite: Coords, radius: real,
                   distance: (LngLat, LngLat) -> real)
    requires distance(Position(station), Position(satellite)) >= 0.0
    ensures var m := NewMap(station, satellite, radius, distance);
            && m.center == LngLat(station.longitude, station.latitude)
            && m.stationMarker == m.center
            && m.startZoom == 13.0
            && 5.0 <= m.zoom <= m.startZoom
            && m.loadCircle.center == m.center
            && m.loadCircle.radiusKm * 1000.0 == radius
            && m.circle.None? && m.line.None?
  {
  }

  /** What `handleRadiusChange` does to the map: nothing without a map, a TypeError when
      the map exists but its "circle" source does not (the "load" event has not fired
      yet), otherwise the circle source is replaced. */
  datatype RadiusResult = NoMap | SourceMissing | Redrawn(updated: MapState)

  function RadiusChange(current: Option<MapState>, station: Coords, newRadius: real): (r: RadiusResult)
    ensures r.NoMap? <==> current.None?
    ensures r.SourceMissing? <==> current.Some? && current.value.circle.None?
    ensures r.Redrawn? ==>
              && r.updated.circle == Some(Circle(Position(station), newRadius / 1000.0))
              && r.updated == current.value.(circle := r.updated.circle)
  {
    match current
    case None => NoMap
    case Some(m) =>
      if m.circle.None? then SourceMissing
      else Redrawn(m.(circle := Some(Geofence(station, newRadius))))
  }

  /** What the component renders. */
  datatype View = LoadingMessage | MapContainer(radiusInput: real)

  class MapboxComponent {
    /** `turf.distance` in kilometres: one fixed function for the component's lifetime. */
    const distance: (LngLat, LngLat) -> real
    var coordinates: Coords
    var secondCoordinates: Coords
    var radius: real
    var mapbox: Option<MapState>
    var secondMarker: Option<LngLat>
    var previousSecondCoordinates: Option<Coords>

    /** The satellite marker only exists on a map, and `previousSecondCoordinates` is
        only ever set to truthy coordinates. */
    ghost predicate Valid()
      reads this
    {
      && (secondMarker.Some? ==> mapbox.Some?)
      && (previousSecondCoordinates.Some? ==> Known(previousSecondCoordinates.value))
    }

    /** The satellite part of the state, as the satellite-update effect sees it. */
    function TrackView(): TrackState
      reads this
    {
      TrackState(secondMarker, previousSecondCoordinates, if mapbox.Some? then mapbox.value.line else None)
    }

    constructor (distance: (LngLat, LngLat) -> real)
      ensures Valid()
      ensures this.distance == distance
      ensures coordinates == Unknown && secondCoordinates == Unknown
      ensures radius == DefaultRadius
      ensures mapbox.None? && secondMarker.None? && previousSecondCoordinates.None?
    {
      this.distance := distance;
      coordinates := Unknown;
      secondCoordinates := Unknown;
      radius := DefaultRadius;
      mapbox := None;
      secondMarker := None;
      previousSecondCoordinates := None;
    }

    /** The ground-station fetch resolving with `outcome`. */
    method FetchCoordinates(outcome: FetchOutcome)
      requires Valid()
      modifies this`coordinates
      ensures Valid()
      ensures coordinates == AfterFetch(old(coordinates), outcome)
    {
      match outcome {
        case Failed =>
        case Fetched(lat, lon) => coordinates := Coords(lat, lon);
      }
    }

    /** The satellite fetch resolving with `outcome`. */
    method FetchSecondCoordinates(outcome: FetchOutcome)
      requires Valid()
      modifies this`secondCoordinates
      ensures Valid()
      ensures secondCoordinates == AfterFetch(old(secondCoordinates), outcome)
    {
      match outcome {
        case Failed =>
        case Fetched(lat, lon) => secondCoordinates := Coords(lat, lon);
      }
    }

    /** Builds a new map from the current slots: centred on the ground station at zoom
        13, zoomed to the distance-based level, with both markers; the geofence is added
        once the map reports "load". */
    method InitMap()
      requires Valid()
      modifies this`mapbox, this`secondMarker
      ensures Valid()
      ensures mapbox == Some(NewMap(coordinates, secondCoordinates, radius, distance))
      ensures secondMarker == Some(Position(secondCoordinates))
    {
      var center := Position(coordinates);
      var created := MapState(center, InitialZoom, InitialZoom, center,
                              Geofence(coordinates, radius), None, None);
      var zoomLevel := ZoomLevel(distance(center, Position(secondCoordinates)));
      mapbox := Some(created.(zoom := zoomLevel));
      secondMarker := Some(Position(secondCoordinates));
    }

    /** The effect that runs when either slot changes: it initialises the map exactly
        when all four coordinate fields are truthy. */
    method CoordinatesEffect()
      requires Valid()
      modifies this`mapbox, this`secondMarker
      ensures Valid()
      ensures Ready(coordinates, secondCoordinates) ==>
                mapbox == Some(NewMap(coordinates, secondCoordinates, radius, distance)) &&
                secondMarker == Some(Position(secondCoordinates))
      ensures !Ready(coordinates, secondCoordinates) ==>
                mapbox == old(mapbox) && secondMarker == old(secondMarker)
    {
      if Truthy(coordinates.latitude) && Truthy(coordinates.longitude) &&
         Truthy(secondCoordinates.latitude) && Truthy(secondCoordinates.longitude) {
        InitMap();
      }
    }

    /** The map's "load" listener: adds the "circle" source with the geofence captured
        when the map was created. It fires once per map. */
    method MapLoaded()
      requires Valid()
      modifies this`mapbox
      ensures Valid()
      ensures old(mapbox).Some? && old(mapbox).value.circle.None? ==>
                mapbox == Some(old(mapbox).value.(circle := Some(old(mapbox).value.loadCircle)))
      ensures old(mapbox).None? || old(mapbox).value.circle.Some? ==> mapbox == old(mapbox)
    {
      if mapbox.Some? && mapbox.value.circle.None? {
        mapbox := Some(mapbox.value.(circle := Some(mapbox.value.loadCircle)));
      }
    }

    /** The radius input's change handler. The new radius is stored as given; `threw`
        reports the TypeError raised when the map exists but has no "circle" source. */
    method HandleRadiusChange(newRadius: real) returns (threw: bool)
      requires Valid()
      modifies this`radius, this`mapbox
      ensures Valid()
      ensures radius == newRadius
      ensures threw == RadiusChange(old(mapbox), coordinates, newRadius).SourceMissing?
      ensures RadiusChange(old(mapbox), coordinates, newRadius).Redrawn? ==>
                mapbox == Some(RadiusChange(old(mapbox), coordinates, newRadius).updated)
      ensures !RadiusChange(old(mapbox), coordinates, newRadius).Redrawn? ==> mapbox == old(mapbox)
    {
      radius := newRadius;
      threw := false;
      if mapbox.Some? {
        var center := Position(coordinates);
        var updatedCircle := Circle(center, newRadius / 1000.0);
        if mapbox.value.circle.None? {
          threw := true;
        } else {
          mapbox := Some(mapbox.value.(circle := Some(updatedCircle)));
        }
      }
    }

    /** The effect that runs when the satellite slot changes: with a marker and truthy
        satellite coordinates, it draws the line from the previous to the current
        position (if there is a previous one), moves the marker and records the current
        position as the previous one. Only the map's line data changes on the map. */
    method SecondCoordinatesEffect()
      requires Valid()
      modifies this`mapbox, this`secondMarker, this`previousSecondCoordinates
      ensures Valid()
      ensures TrackView() == SatelliteStep(old(TrackView()), secondCoordinates)
      ensures mapbox.Some? == old(mapbox).Some?
      ensures mapbox.Some? ==> mapbox.value == old(mapbox).value.(line := mapbox.value.line)
    {
      if secondMarker.Some? && Truthy(secondCoordinates.latitude) && Truthy(secondCoordinates.longitude) {
        if previousSecondCoordinates.Some? {
          var line := Segment(previousSecondCoordinates.value, secondCoordinates);
          mapbox := Some(mapbox.value.(line := Some(line)));
        }
        secondMarker := Some(Position(secondCoordinates));
        previousSecondCoordinates := Some(secondCoordinates);
      }
    }

    /** "Loading map..." exactly when some coordinate field is falsy; otherwise the map
        container with the radius input showing the stored radius. */
    function Render(): (v: View)
      reads this
      ensures v.LoadingMessage? <==> !Ready(coordinates, secondCoordinates)
      ensures v.MapContainer? ==> v.radiusInput == radius
    {
      if ShowsLoading(coordinates, secondCoordinates) then LoadingMessage
      else MapContainer(radius)
    }
  }
}
