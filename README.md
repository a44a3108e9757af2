# AgroXSAT tracking dashboard — a Dafny model

The AgroXSAT dashboard shows a ground station and a satellite on a Mapbox map.
It fetches each position once from the backend into its own state slot. It draws
the map only when all four coordinate fields are truthy, and otherwise renders
"Loading map...". The map starts centred on the ground station at zoom 13 and then
zooms to `max(13 - d/10, 5)` for a station–satellite distance of `d` km. A red
geofence circle of `radius/1000` km surrounds the station, and a radius input
redraws it. A satellite-update effect is written to move the satellite marker to
each new satellite position and to draw a line from the previous position to the
current one. As the component is scheduled, that branch never runs (see
"## Left out"). The model states what the effect does whenever it runs with a marker
present.

The model has five modules:

- `Wrappers`: `Option`, standing for a value that may be `null`.
- `Coordinates`: a coordinate field is `null` or a number. The module holds
  JavaScript truthiness (`null` and `0` are falsy), the readiness gate and its
  complement (the loading check), and the effect of one fetch outcome on a slot.
- `Geometry`: `[longitude, latitude]` pairs, the zoom formula over exact
  reals, the geofence circle request, and the two-point line.
- `Track`: the satellite-update effect as a pure step on the marker, the
  previous coordinates and the line data. `Replay` runs that step over a
  sequence of satellite positions; the lemmas say what any run leaves behind.
- `Dashboard`: a record of what a map shows (`MapState`), and the class
  `MapboxComponent`. Its fields are the component's six state slots. Its methods
  are the two fetch handlers, the readiness effect and `initMap`, the map's
  "load" listener, the radius handler and the satellite-update effect. Each
  method's contract ties the new state to the pure functions above.

The model follows what the code does, not an idealised tracker. The code does not clamp the radius to [100, 5000]; it stores the input as
given. It does not accumulate or deduplicate a ground track; the line holds only
the latest segment, and a repeated position draws a zero-length one. It does not
range-check fetched coordinates, and it fetches once rather than polling.

`handleRadiusChange` assumes the map's "circle" source exists. That source is
added only when the map fires "load". A radius change between map creation and
"load" therefore raises a TypeError after the new radius was stored. The model
reports this as the `threw` result of `HandleRadiusChange`.

## Model

| member | source | states |
|---|---|---|
| Coordinates.AfterFetch | AgritechSat/frontend/src/pages/@Dashboard/components/googlemaps.jsx:18-35 | a failed fetch leaves the slot as it was; a successful one stores the returned latitude and longitude unchanged |
| Coordinates.AfterFetchesKeepsLastSuccess | AgritechSat/frontend/src/pages/@Dashboard/components/googlemaps.jsx:18-35 | after any sequence of fetch outcomes, a slot holds the fields of the last successful one, or its starting value if every fetch failed |
| Coordinates.ReadinessAfterFetches | AgritechSat/frontend/src/pages/@Dashboard/components/googlemaps.jsx:17-46 | after any interleaving of the two independent fetches, the map may be initialised exactly when each slot's last successful result (or its starting value) has two truthy fields |
| Coordinates.SatelliteFailureKeepsLoading | AgritechSat/frontend/src/pages/@Dashboard/components/googlemaps.jsx:172-174 | if no satellite position is known and the satellite fetch fails, "Loading map..." is shown whatever the ground-station fetch returned |
| Coordinates.LoadingExactlyWhenNotReady | AgritechSat/frontend/src/pages/@Dashboard/components/googlemaps.jsx:172-174 | the loading check is exactly the negation of the initialisation gate, and the gate holds exactly when both slots have two truthy fields |
| Coordinates.ZeroCountsAsMissing | AgritechSat/frontend/src/pages/@Dashboard/components/googlemaps.jsx:43 | a latitude or longitude equal to 0 blocks initialisation and shows the loading message |
| Geometry.ZoomLevel | AgritechSat/frontend/src/pages/@Dashboard/components/googlemaps.jsx:123 | the zoom is at least 5; at most 13 for a non-negative distance; exactly 13 at distance 0; the linear `13 - d/10` up to 80 km and 5 from there on |
| Geometry.ZoomNonIncreasing | AgritechSat/frontend/src/pages/@Dashboard/components/googlemaps.jsx:123 | a larger distance never gives a larger zoom |
| Geometry.Geofence | AgritechSat/frontend/src/pages/@Dashboard/components/googlemaps.jsx:102-103 | the circle is centred on the ground station's `[longitude, latitude]` and its radius in km times 1000 is the radius in metres |
| Geometry.Segment | AgritechSat/frontend/src/pages/@Dashboard/components/googlemaps.jsx:145-148 | the line has exactly two points: the previous position, then the current one, each as `[longitude, latitude]` |
| Track.SatelliteStep | AgritechSat/frontend/src/pages/@Dashboard/components/googlemaps.jsx:141-169 | without a marker or with a falsy satellite field nothing changes; otherwise the marker moves to the current position and `previous` becomes it; a line from previous to current is drawn exactly when a previous position existed |
| Track.ReplayWithoutMarkerIsIdle | AgritechSat/frontend/src/pages/@Dashboard/components/googlemaps.jsx:141-142 | while no satellite marker exists, any number of satellite updates change nothing |
| Track.ReplayFollowsLatestTwo | AgritechSat/frontend/src/pages/@Dashboard/components/googlemaps.jsx:141-169 | after any sequence of updates, the marker and `previous` are at the latest truthy position, and the line joins only the last two positions seen (or is left as it was when only one position was ever seen); if no update was truthy, nothing changed |
| Track.ReplayKeepsSegmentShape | AgritechSat/frontend/src/pages/@Dashboard/components/googlemaps.jsx:145-168 | the line, whenever it exists, stays a single two-point segment that ends where the marker sits |
| Track.RepeatedPositionDrawsZeroLengthSegment | AgritechSat/frontend/src/pages/@Dashboard/components/googlemaps.jsx:145-152 | the same truthy position twice in a row draws a line from that position to itself (no deduplication) |
| Dashboard.NewMapView | AgritechSat/frontend/src/pages/@Dashboard/components/googlemaps.jsx:48-124 | a new map is centred on the ground station at zoom 13, then zoomed to a level in [5, 13]; its station marker and geofence are centred on the station, the geofence has the stored radius, and it has no circle or line data yet |
| Dashboard.RadiusChange | AgritechSat/frontend/src/pages/@Dashboard/components/googlemaps.jsx:128-137 | with no map nothing happens; a map without its "circle" source raises; otherwise only the circle data changes, to a circle of `newRadius/1000` km around the current ground station |
| Dashboard.MapboxComponent.constructor | AgritechSat/frontend/src/pages/@Dashboard/components/googlemaps.jsx:10-15 | both slots start with null fields, the radius at 1000, and no map, marker or previous coordinates; the component keeps one fixed distance function |
| Dashboard.MapboxComponent.FetchCoordinates | AgritechSat/frontend/src/pages/@Dashboard/components/googlemaps.jsx:18-26 | only the ground-station slot changes, as `AfterFetch` says |
| Dashboard.MapboxComponent.FetchSecondCoordinates | AgritechSat/frontend/src/pages/@Dashboard/components/googlemaps.jsx:28-36 | only the satellite slot changes, as `AfterFetch` says |
| Dashboard.MapboxComponent.InitMap | AgritechSat/frontend/src/pages/@Dashboard/components/googlemaps.jsx:48-125 | the map becomes `NewMap` of the current slots, radius and distance, and the satellite marker sits at the satellite's position |
| Dashboard.MapboxComponent.CoordinatesEffect | AgritechSat/frontend/src/pages/@Dashboard/components/googlemaps.jsx:42-46 | the map is initialised exactly when all four fields are truthy; otherwise map and marker are unchanged |
| Dashboard.MapboxComponent.MapLoaded | AgritechSat/frontend/src/pages/@Dashboard/components/googlemaps.jsx:101-115 | the "load" listener adds the geofence captured at map creation as the circle data, once |
| Dashboard.MapboxComponent.HandleRadiusChange | AgritechSat/frontend/src/pages/@Dashboard/components/googlemaps.jsx:128-138 | the radius is stored exactly as given (no clamping); the map changes and the handler throws exactly as `RadiusChange` says |
| Dashboard.MapboxComponent.SecondCoordinatesEffect | AgritechSat/frontend/src/pages/@Dashboard/components/googlemaps.jsx:141-170 | marker, `previous` and line data move as `SatelliteStep` says; the rest of the map is unchanged |
| Dashboard.MapboxComponent.Render | AgritechSat/frontend/src/pages/@Dashboard/components/googlemaps.jsx:172-203 | "Loading map..." exactly when the gate is false; otherwise the map container whose radius input shows the stored radius |

## Left out

- Mapbox rendering and the DOM: marker elements, popups and their mouse listeners, layer paint styles, the map container. A map is the record of its centre, zoom, markers and source data.
- turf.js internals: `turf.distance` is a function the constructor stores in the constant field `distance`. `InitMap` and `CoordinatesEffect` use that field, and only `NewMapView` assumes the distance is non-negative. A `turf.circle` result is the request (centre, radius in km); the polygon is not generated.
- The network: each axios request is a `FetchOutcome` (failure, or the response's two fields). The error logging is not modelled.
- React scheduling: effects are methods that read the fields when called. In React, the effects of one commit all see that render's state. So the marker created by `initMap` is not yet visible to a satellite-update effect in the same commit. The order in which effects run is left to the caller.
- Track.Replay: in the source the line-drawing and marker-moving branch (googlemaps.jsx:143-168) is never reached. The satellite slot is written once, by the mount-only fetch. The update effect that this write triggers sees the render in which `secondMarker` is still `null`, because `setSecondMarker` takes effect only in the next render, and that render does not re-run the effect. So in the running component the marker is never moved and no line is drawn. `SatelliteStep`, `Replay` and their lemmas, and `SecondCoordinatesEffect`, describe what the effect does whenever it does run with a marker present. The model does not prove that this branch is unreachable, because it does not model render snapshots.
- Dashboard.MapboxComponent.HandleRadiusChange: the radius is a real number. The source stores the input's string and relies on JavaScript's coercion in `newRadius / 1000`; non-numeric input (NaN) is not modelled.
- Coordinates.Truthy: a field is `null` or a real number. Strings, `undefined` as distinct from `null`, and NaN (also falsy) are not modelled.
- Dashboard.MapboxComponent.SecondCoordinatesEffect: the model does not distinguish adding "line-source" from replacing its data; both leave the same line. Mapbox's refusal to add a source before the style has loaded is not modelled.
- The `zoomTo` animation (1000 ms) is reduced to its target zoom.
- The login page, the navigation bar and the backend URL table: network, storage and markup glue, or routing data whose views are not part of this model.
