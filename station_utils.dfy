/**
 * Nearest-station resolution: a linear scan over a station list that keeps
 * the station with the strictly smallest distance to the user among those
 * whose id has a known coordinate.
 *
 * The Haversine distance is floating-point trigonometry; it enters here as a
 * parameter `dist`, the distance from the user's position to a coordinate,
 * and only the selection logic is modelled.
 */
module StationUtils {
  import opened Wrappers
  import opened MtaTypes

  /** The fixed coordinate table, keyed by station id. */
  const StationCoordinates: map<string, Coordinates> := map[
    "R20" := Coordinates(40.807604, -73.945598),
    "R19" := Coordinates(40.779527, -73.955482),
    "R18" := Coordinates(40.762391, -73.967547),
    "R17" := Coordinates(40.752726, -73.977229),
    "R16" := Coordinates(40.757500, -73.985830),
    "R15" := Coordinates(40.749567, -73.987950),
    "R14" := Coordinates(40.734720, -73.990280),
    "R13" := Coordinates(40.757200, -73.989800),
    "R12" := Coordinates(40.740824, -74.002138),
    "R11" := Coordinates(40.733253, -73.999824),
    "R10" := Coordinates(40.737199, -73.996692),
    "R9" := Coordinates(40.757500, -73.985830),
    "R8" := Coordinates(40.737199, -73.996692),
    "R7" := Coordinates(40.734720, -73.990280),
    "R6" := Coordinates(40.753742, -73.983559),
    "R5" := Coordinates(40.734720, -73.990280),
    "R4" := Coordinates(40.737199, -73.996692),
    "R3" := Coordinates(40.757500, -73.985830),
    "R2" := Coordinates(40.737199, -73.996692),
    "R1" := Coordinates(40.737199, -73.996692)
  ]

  /** The `{ id, stationName }` records the resolver is given. */
  datatype StationRef = StationRef(id: string, stationName: string)

  datatype Closest = Closest(station: StationRef, distance: real)

  /** One step of the scan: take `st` if it has a coordinate and is strictly closer. */
  function Step(coords: map<string, Coordinates>, dist: Coordinates -> real,
                best: Option<Closest>, st: StationRef): Option<Closest>
  {
    if st.id in coords && (best.None? || dist(coords[st.id]) < best.value.distance)
    then Some(Closest(st, dist(coords[st.id])))
    else best
  }

  /** The scan over a whole list, left to right (`best == None` plays the role of `Infinity`). */
  function ClosestIn(coords: map<string, Coordinates>, dist: Coordinates -> real,
                     stations: seq<StationRef>): Option<Closest>
  {
    if stations == [] then None
    else Step(coords, dist, ClosestIn(coords, dist, stations[..|stations| - 1]), stations[|stations| - 1])
  }

  /** `stations[i]` has a coordinate. */
  predicate Located(coords: map<string, Coordinates>, stations: seq<StationRef>, i: int)
    requires 0 <= i < |stations|
  {
    stations[i].id in coords
  }

  /**
   * `stations[k]` is the answer: it has a coordinate, its distance is the
   * minimum over all located stations, and every located station before it
   * is strictly farther (ties go to the first in input order).
   */
  ghost predicate IsEarliestNearest(coords: map<string, Coordinates>, dist: Coordinates -> real,
                                    stations: seq<StationRef>, k: int)
  {
    0 <= k < |stations| && Located(coords, stations, k)
    && (forall j :: 0 <= j < |stations| && Located(coords, stations, j) ==>
          dist(coords[stations[k].id]) <= dist(coords[stations[j].id]))
    && (forall j :: 0 <= j < k && Located(coords, stations, j) ==>
          dist(coords[stations[k].id]) < dist(coords[stations[j].id]))
  }

  /** The scan finds nothing exactly when no station has a coordinate. */
  lemma {:induction false} ClosestInNone(coords: map<string, Coordinates>, dist: Coordinates -> real,
                                         stations: seq<StationRef>)
    ensures ClosestIn(coords, dist, stations).None? <==>
              forall i :: 0 <= i < |stations| ==> !Located(coords, stations, i)
  {
    if stations != [] {
      var n := |stations| - 1;
      var prefix := stations[..n];
      ClosestInNone(coords, dist, prefix);
      assert forall i :: 0 <= i < n ==> prefix[i] == stations[i];
      if ClosestIn(coords, dist, prefix).Some? {
        var i :| 0 <= i < n && Located(coords, prefix, i);
        assert Located(coords, stations, i);
      } else if Located(coords, stations, n) {
        assert ClosestIn(coords, dist, stations).Some?;
      } else {
        assert ClosestIn(coords, dist, stations).None?;
        forall i | 0 <= i < |stations| ensures !Located(coords, stations, i) {
          if i < n { assert !Located(coords, prefix, i); }
        }
      }
    }
  }

  /** Keeping the earlier answer when the new last station is not strictly closer. */
  lemma KeepEarlier(coords: map<string, Coordinates>, dist: Coordinates -> real,
                    stations: seq<StationRef>, k: int)
    requires |stations| > 0
    requires IsEarliestNearest(coords, dist, stations[..|stations| - 1], k)
    requires var st := stations[|stations| - 1];
             st.id in coords ==> dist(coords[stations[k].id]) <= dist(coords[st.id])
    ensures IsEarliestNearest(coords, dist, stations, k)
  {
    var n := |stations| - 1;
    assert forall i :: 0 <= i < n ==> stations[..n][i] == stations[i];
  }

  /** Taking the new last station when it is strictly closer than all before it. */
  lemma TakeLast(coords: map<string, Coordinates>, dist: Coordinates -> real, stations: seq<StationRef>)
    requires |stations| > 0 && Located(coords, stations, |stations| - 1)
    requires forall j :: 0 <= j < |stations| - 1 && Located(coords, stations, j) ==>
               dist(coords[stations[|stations| - 1].id]) < dist(coords[stations[j].id])
    ensures IsEarliestNearest(coords, dist, stations, |stations| - 1)
  {
  }

  /** What the scan computes, stated without reference to the scan. */
  lemma {:induction false} ClosestInCorrect(coords: map<string, Coordinates>, dist: Coordinates -> real,
                                            stations: seq<StationRef>)
    ensures ClosestIn(coords, dist, stations).Some? ==>
              exists k :: IsEarliestNearest(coords, dist, stations, k)
                          && ClosestIn(coords, dist, stations).value
                             == Closest(stations[k], dist(coords[stations[k].id]))
  {
    if stations != [] {
      var n := |stations| - 1;
      var prefix := stations[..n];
      var st := stations[n];
      ClosestInCorrect(coords, dist, prefix);
      var best := ClosestIn(coords, dist, prefix);
      if best.Some? {
        var k :| IsEarliestNearest(coords, dist, prefix, k)
                 && best.value == Closest(prefix[k], dist(coords[prefix[k].id]));
        assert prefix[k] == stations[k];
        if st.id in coords && dist(coords[st.id]) < best.value.distance {
          forall j | 0 <= j < n && Located(coords, stations, j)
            ensures dist(coords[st.id]) < dist(coords[stations[j].id])
          {
            assert Located(coords, prefix, j) && prefix[j] == stations[j];
          }
          TakeLast(coords, dist, stations);
        } else {
          KeepEarlier(coords, dist, stations, k);
        }
      } else if st.id in coords {
        ClosestInNone(coords, dist, prefix);
        forall j | 0 <= j < n ensures !Located(coords, stations, j) {
          assert !Located(coords, prefix, j) && prefix[j] == stations[j];
        }
        TakeLast(coords, dist, stations);
      }
    }
  }

  /** The stations of the list that have a coordinate, in order. */
  function LocatedOnly(coords: map<string, Coordinates>, stations: seq<StationRef>): seq<StationRef> {
    if stations == [] then []
    else
      var rest := LocatedOnly(coords, stations[..|stations| - 1]);
      if stations[|stations| - 1].id in coords then rest + [stations[|stations| - 1]] else rest
  }

  /** Stations without a coordinate are ignored: dropping them changes nothing. */
  lemma {:induction false} UnlocatedIgnored(coords: map<string, Coordinates>, dist: Coordinates -> real,
                                            stations: seq<StationRef>)
    ensures ClosestIn(coords, dist, LocatedOnly(coords, stations)) == ClosestIn(coords, dist, stations)
  {
    if stations != [] {
      var n := |stations| - 1;
      UnlocatedIgnored(coords, dist, stations[..n]);
      var rest := LocatedOnly(coords, stations[..n]);
      if stations[n].id in coords {
        assert (rest + [stations[n]])[..|rest|] == rest;
      }
    }
  }

  /**
   * `findClosestStation`. `minDistance` starts as `None`, standing for
   * `Infinity`, which every real distance is below.
   */
  method FindClosestStation(stations: seq<StationRef>, dist: Coordinates -> real)
    returns (r: Option<Closest>)
    ensures r == ClosestIn(StationCoordinates, dist, stations)
    ensures r.None? <==> forall i :: 0 <= i < |stations| ==> !Located(StationCoordinates, stations, i)
    ensures r.Some? ==> exists k :: IsEarliestNearest(StationCoordinates, dist, stations, k)
                                    && r.value == Closest(stations[k], dist(StationCoordinates[stations[k].id]))
  {
    var closestStation: Option<StationRef> := None;
    var minDistance: Option<real> := None;
    for i := 0 to |stations|
      invariant closestStation.None? <==> minDistance.None?
      invariant ClosestIn(StationCoordinates, dist, stations[..i])
                == if closestStation.None? then None
                   else Some(Closest(closestStation.value, minDistance.value))
    {
      var station := stations[i];
      if station.id in StationCoordinates {
        var coords := StationCoordinates[station.id];
        var distance := dist(coords);
        if minDistance.None? || distance < minDistance.value {
          minDistance := Some(distance);
          closestStation := Some(station);
        }
      }
      assert stations[..i + 1][..i] == stations[..i];
    }
    assert stations[..|stations|] == stations;
    r := if closestStation.Some? then Some(Closest(closestStation.value, minDistance.value)) else None;
    ClosestInNone(StationCoordinates, dist, stations);
    ClosestInCorrect(StationCoordinates, dist, stations);
  }

  /**
   * The coordinate table lists the same point under several ids, so ties
   * happen: "R16" and "R9" are both the Times Square centroid, and whatever
   * the user's position the earlier of the two in the list wins.
   */
  lemma TieGoesToFirst(dist: Coordinates -> real)
    ensures StationCoordinates["R16"] == StationCoordinates["R9"]
    ensures ClosestIn(StationCoordinates, dist, [StationRef("R16", "Times Sq - 42 St"), StationRef("R9", "42 St - Times Sq")])
            == Some(Closest(StationRef("R16", "Times Sq - 42 St"), dist(StationCoordinates["R16"])))
  {
    var s := [StationRef("R16", "Times Sq - 42 St"), StationRef("R9", "42 St - Times Sq")];
    assert s[..1] == [s[0]];
    assert s[..1][..0] == [];
  }
}
