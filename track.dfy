/**
 The satellite-update effect of the dashboard as a pure step on the part of the
 state it touches: the satellite marker, the previous satellite coordinates and the
 data of the map's line source. `Replay` runs the step over successive satellite
 coordinates; the lemmas say what any such run leaves behind.
 */
module Track {
  import opened Wrappers
  import opened Coordinates
  import opened Geometry

  /** `marker`: where the satellite marker sits, None before the map created it.
      `previous`: `previousSecondCoordinates`. `line`: the data of "line-source". */
  datatype TrackState = TrackState(marker: Option<LngLat>, previous: Option<Coords>, line: Option<Line>)

  /** One run of the satellite-update effect with the current satellite slot. */
  function SatelliteStep(s: TrackState, current: Coords): (r: TrackState)
    ensures !(s.marker.Some? && Known(current)) ==> r == s
    ensures s.marker.Some? && Known(current) ==>
              r.marker == Some(Position(current)) && r.previous == Some(current)
    ensures s.marker.Some? && Known(current) && s.previous.Some? ==>
              r.line == Some(Segment(s.previous.value, current))
    ensures s.previous.None? ==> r.line == s.line
  {
    if s.marker.Some? && Known(current) then
      var line := if s.previous.Some? then Some(Segment(s.previous.value, current)) else s.line;
      TrackState(Some(Position(current)), Some(current), line)
    else
      s
  }

  /** The state after the effect has run once for each element of `updates`, in order. */
  function Replay(s: TrackState, updates: seq<Coords>): TrackState
    decreases |updates|
  {
    if updates == [] then s
    else SatelliteStep(Replay(s, updates[..|updates| - 1]), updates[|updates| - 1])
  }

  /** The elements of `updates` the effect acts on (both fields truthy), in order. */
  function KnownPositions(updates: seq<Coords>): (k: seq<Coords>)
    ensures |k| <= |updates|
    ensures forall i :: 0 <= i < |k| ==> Known(k[i])
    decreases |updates|
  {
    if updates == [] then []
    else
      var last := updates[|updates| - 1];
      KnownPositions(updates[..|updates| - 1]) + (if Known(last) then [last] else [])
  }

  /** The satellite positions the effect has seen: the stored previous one, then the
      known elements of `updates`. */
  function History(s: TrackState, updates: seq<Coords>): seq<Coords> {
    (if s.previous.Some? then [s.previous.value] else []) + KnownPositions(updates)
  }

  /** Without a marker the effect never does anything. */
  lemma {:induction false} ReplayWithoutMarkerIsIdle(s: TrackState, updates: seq<Coords>)
    requires s.marker.None?
    ensures Replay(s, updates) == s
    decreases |updates|
  {
    if updates != [] {
      ReplayWithoutMarkerIsIdle(s, updates[..|updates| - 1]);
    }
  }

  /** With a marker, a run of the effect leaves the marker on the latest known satellite
      position, `previous` equal to that position, and a line that joins only the last
      two positions seen (no track is accumulated), or the line it had if only one
      position was ever seen; if no update was known, nothing changed. */
  lemma {:induction false} ReplayFollowsLatestTwo(s: TrackState, updates: seq<Coords>)
    requires s.marker.Some?
    ensures var r := Replay(s, updates); var h := History(s, updates);
            (KnownPositions(updates) == [] ==> r == s) &&
            (KnownPositions(updates) != [] ==>
               r.marker == Some(Position(h[|h| - 1])) && r.previous == Some(h[|h| - 1])) &&
            (KnownPositions(updates) != [] && |h| >= 2 ==>
               r.line == Some(Segment(h[|h| - 2], h[|h| - 1]))) &&
            (KnownPositions(updates) != [] && |h| == 1 ==> r.line == s.line)
    decreases |updates|
  {
    if updates != [] {
      var init := updates[..|updates| - 1];
      var last := updates[|updates| - 1];
      ReplayFollowsLatestTwo(s, init);
      var r0 := Replay(s, init);
      var h0 := History(s, init);
      assert r0.marker.Some?;
      assert KnownPositions(updates) == KnownPositions(init) + (if Known(last) then [last] else []);
      if Known(last) {
        assert History(s, updates) == h0 + [last];
        assert r0.previous.Some? <==> |h0| >= 1;
        assert |h0| >= 1 ==> r0.previous == Some(h0[|h0| - 1]);
      } else {
        assert KnownPositions(updates) == KnownPositions(init);
      }
    }
  }

  /** What the satellite line looks like whenever it exists: exactly two points, ending
      where the marker sits, which is the stored previous position. */
  ghost predicate SegmentShape(s: TrackState) {
    && (s.previous.Some? ==> s.marker == Some(Position(s.previous.value)))
    && (s.line.Some? ==>
          s.previous.Some? && |s.line.value.points| == 2 &&
          s.line.value.points[1] == Position(s.previous.value))
  }

  /** Any number of effect runs keep the line a single two-point segment that ends at
      the marker. */
  lemma {:induction false} ReplayKeepsSegmentShape(s: TrackState, updates: seq<Coords>)
    requires SegmentShape(s)
    ensures SegmentShape(Replay(s, updates))
    decreases |updates|
  {
    if updates != [] {
      ReplayKeepsSegmentShape(s, updates[..|updates| - 1]);
    }
  }

  /** The effect does not deduplicate: seeing the same known position twice in a row
      draws a zero-length line from that position to itself. */
  lemma RepeatedPositionDrawsZeroLengthSegment(s: TrackState, c: Coords)
    requires s.marker.Some? && Known(c)
    ensures Replay(s, [c, c]).line == Some(LineString([Position(c), Position(c)]))
  {
    assert [c, c][..1] == [c];
    assert [c][..0] == [];
    var once := SatelliteStep(s, c);
    assert Replay(s, [c]) == once;
    assert once.previous == Some(c);
  }
}
