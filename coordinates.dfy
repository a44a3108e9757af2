/**
 The two coordinate slots of the tracking dashboard (ground station and satellite),
 JavaScript truthiness of their fields, the readiness gate that decides between
 drawing the map and showing "Loading map...", and the effect of one position fetch.
 */
module Coordinates {
  import opened Wrappers

  /** A latitude or longitude as the component holds it: `null` (also standing for a
      field the position service left out) or the number the service returned. */
  datatype Field = Null | Num(value: real)

  /** JavaScript truthiness of a field: `null` and `0` are both falsy. */
  predicate Truthy(f: Field) {
    f.Num? && f.value != 0.0
  }

  /** The `{ latitude, longitude }` object stored in a slot. */
  datatype Coords = Coords(latitude: Field, longitude: Field)

  /** What both slots hold before their first successful fetch. */
  const Unknown := Coords(Null, Null)

  /** Both fields of a slot are truthy. */
  predicate Known(c: Coords) {
    Truthy(c.latitude) && Truthy(c.longitude)
  }

  /** The condition under which the map is initialised (googlemaps.jsx, line 43). */
  predicate Ready(station: Coords, satellite: Coords) {
    Truthy(station.latitude) && Truthy(station.longitude) &&
    Truthy(satellite.latitude) && Truthy(satellite.longitude)
  }

  /** The condition under which "Loading map..." is rendered (googlemaps.jsx, line 172),
      written as the source writes it: a disjunction of negations. */
  predicate ShowsLoading(station: Coords, satellite: Coords) {
    !Truthy(station.latitude) || !Truthy(station.longitude) ||
    !Truthy(satellite.latitude) || !Truthy(satellite.longitude)
  }

  /** The two gates are exact complements: the map is set up exactly when the
      loading message is not shown. */
  lemma LoadingExactlyWhenNotReady(station: Coords, satellite: Coords)
    ensures ShowsLoading(station, satellite) <==> !Ready(station, satellite)
    ensures Ready(station, satellite) <==> Known(station) && Known(satellite)
  {
  }

  /** A coordinate equal to 0 (the equator or the prime meridian) counts as missing. */
  lemma ZeroCountsAsMissing(station: Coords, satellite: Coords)
    requires station.latitude == Num(0.0) || station.longitude == Num(0.0)
          || satellite.latitude == Num(0.0) || satellite.longitude == Num(0.0)
    ensures !Ready(station, satellite) && ShowsLoading(station, satellite)
  {
  }

  /** The outcome of one request to the position service: a failure (network error,
      rejected promise) or the `latitude` and `longitude` of the response body. */
  datatype FetchOutcome = Failed | Fetched(latitude: Field, longitude: Field)

  /** The slot after a fetch: a failure is only logged, a success stores the two
      returned fields as they are (no range check). */
  function AfterFetch(slot: Coords, outcome: FetchOutcome): (r: Coords)
    ensures outcome.Failed? ==> r == slot
    ensures outcome.Fetched? ==> r.latitude == outcome.latitude && r.longitude == outcome.longitude
  {
    match outcome
    case Failed => slot
    case Fetched(lat, lon) => Coords(lat, lon)
  }

  /** A failed satellite fetch keeps the dashboard loading whatever the ground-station
      fetch did, as long as no satellite position was known before. */
  lemma SatelliteFailureKeepsLoading(station: Coords, satellite: Coords, stationOutcome: FetchOutcome)
    requires !Known(satellite)
    ensures ShowsLoading(AfterFetch(station, stationOutcome), AfterFetch(satellite, Failed))
  {
  }

  /** The fields of the last successful outcome in `outcomes`, if any. */
  function LastFetched(outcomes: seq<FetchOutcome>): (r: Option<Coords>)
    ensures r.Some? ==> exists i :: 0 <= i < |outcomes| && outcomes[i] == Fetched(r.value.latitude, r.value.longitude)
    ensures r.None? ==> forall i :: 0 <= i < |outcomes| ==> outcomes[i].Failed?
    decreases |outcomes|
  {
    if outcomes == [] then None
    else match outcomes[|outcomes| - 1]
      case Fetched(lat, lon) => Some(Coords(lat, lon))
      case Failed => LastFetched(outcomes[..|outcomes| - 1])
  }

  /** A slot after a sequence of fetch outcomes, applied in order. */
  function AfterFetches(slot: Coords, outcomes: seq<FetchOutcome>): Coords
    decreases |outcomes|
  {
    if outcomes == [] then slot
    else AfterFetch(AfterFetches(slot, outcomes[..|outcomes| - 1]), outcomes[|outcomes| - 1])
  }

  /** However many fetches resolve, a slot holds the fields of the last success, or its
      starting value if every fetch failed. */
  lemma {:induction false} AfterFetchesKeepsLastSuccess(slot: Coords, outcomes: seq<FetchOutcome>)
    ensures AfterFetches(slot, outcomes) ==
            (if LastFetched(outcomes).Some? then LastFetched(outcomes).value else slot)
    decreases |outcomes|
  {
    if outcomes != [] {
      AfterFetchesKeepsLastSuccess(slot, outcomes[..|outcomes| - 1]);
    }
  }

  /** The two slots are written by independent fetches, so readiness after any
      interleaving of them depends only on each slot's last successful outcome: the map
      is set up exactly when both of those results (or the starting values, where every
      fetch failed) have two truthy fields. */
  lemma ReadinessAfterFetches(station: Coords, satellite: Coords,
                              stationOutcomes: seq<FetchOutcome>, satelliteOutcomes: seq<FetchOutcome>)
    ensures var gs := LastFetched(stationOutcomes);
            var sat := LastFetched(satelliteOutcomes);
            Ready(AfterFetches(station, stationOutcomes), AfterFetches(satellite, satelliteOutcomes))
            <==> Known(if gs.Some? then gs.value else station) && Known(if sat.Some? then sat.value else satellite)
  {
    AfterFetchesKeepsLastSuccess(station, stationOutcomes);
    AfterFetchesKeepsLastSuccess(satellite, satelliteOutcomes);
  }
}
