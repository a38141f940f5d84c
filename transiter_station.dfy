/**
 * The Transiter station service: turns an already fetched stop record into
 * the station screen's data (routes and their colours, platforms,
 * transfers, the next arrivals), behind a five-minute endpoint cache.
 */
module TransiterStation {
  import opened Wrappers
  import opened MtaTypes
  import opened Seqs
  import opened TimedCache

  // ---------------------------------------------------------------------
  // The stop record as the API returns it
  // ---------------------------------------------------------------------

  datatype RouteRef = RouteRef(id: string, color: string)

  datatype ServiceMap = ServiceMap(configId: string, routes: seq<RouteRef>)

  /** The parts of a nested stop the extraction reads. */
  datatype StopSummary = StopSummary(id: string, name: string)

  datatype Transfer = Transfer(toStop: StopSummary)

  /**
   * One scheduled call of a trip at the stop. `arrivalTime` is the
   * `arrival.time` field already read as whole seconds since the epoch.
   */
  datatype StopTime = StopTime(
    tripId: string,
    routeId: string,
    destinationName: string,
    arrivalTime: int,
    arrivalDelay: real,
    future: bool,
    directionId: Option<bool>)

  datatype TransiterStop = TransiterStop(
    id: string,
    name: string,
    latitude: Option<real>,
    longitude: Option<real>,
    childStops: Option<seq<StopSummary>>,
    serviceMaps: Option<seq<ServiceMap>>,
    stopTimes: Option<seq<StopTime>>,
    transfers: Option<seq<Transfer>>)

  datatype EnhancedStationData = EnhancedStationData(
    id: string,
    name: string,
    coordinates: Option<Coordinates>,
    routes: seq<string>,
    routeColors: map<string, string>,
    transfers: seq<string>,
    platforms: seq<string>,
    realTimeArrivals: seq<TrainArrival>)

  // ---------------------------------------------------------------------
  // Arrivals
  // ---------------------------------------------------------------------

  const MaxArrivals: nat := 10
  const MillisPerMinute: int := 60000

  /** `Math.round(ms / 60000)`: JavaScript rounds halves up. */
  function RoundToMinutes(ms: int): (m: int)
    ensures m * MillisPerMinute - MillisPerMinute / 2 <= ms < m * MillisPerMinute + MillisPerMinute / 2
  {
    (ms + MillisPerMinute / 2) / MillisPerMinute
  }

  /** The `map` step of `parseStopTimes`. */
  function ToArrival(st: StopTime, nowMs: int): (a: TrainArrival)
    ensures a.minutesAway >= 0
    ensures a.minutesAway > 0 ==> a.minutesAway == RoundToMinutes(st.arrivalTime * 1000 - nowMs)
    ensures RoundToMinutes(st.arrivalTime * 1000 - nowMs) > 0 ==> a.minutesAway > 0
    ensures a.direction == N <==> st.directionId == Some(true)
    ensures a.direction == S <==> st.directionId != Some(true)
    ensures a.isDelayed <==> st.arrivalDelay > 0.0
    ensures a.trainId == st.tripId && a.line == st.routeId && a.destination == st.destinationName
  {
    var arrivalTime := st.arrivalTime * 1000;
    var rounded := RoundToMinutes(arrivalTime - nowMs);
    var minutesAway := if rounded > 0 then rounded else 0;
    TrainArrival(
      st.tripId,
      st.routeId,
      if st.directionId == Some(true) then N else S,
      minutesAway,
      st.destinationName,
      st.arrivalDelay > 0.0)
  }

  predicate IsFuture(st: StopTime) { st.future }

  function Arrivals(stopTimes: seq<StopTime>, nowMs: int): (r: seq<TrainArrival>)
    ensures |r| == |stopTimes|
    ensures forall i :: 0 <= i < |r| ==> r[i] == ToArrival(stopTimes[i], nowMs)
  {
    seq(|stopTimes|, i requires 0 <= i < |stopTimes| => ToArrival(stopTimes[i], nowMs))
  }

  predicate SortedByMinutes(s: seq<TrainArrival>) {
    forall i, j :: 0 <= i < j < |s| ==> s[i].minutesAway <= s[j].minutesAway
  }

  /** Every element of `s` is due no sooner than `lo` minutes. */
  predicate AllAtLeast(lo: int, s: seq<TrainArrival>) {
    forall i :: 0 <= i < |s| ==> lo <= s[i].minutesAway
  }

  /** Inserts `a` before the first element that is due no earlier than it. */
  function InsertByMinutes(a: TrainArrival, s: seq<TrainArrival>): seq<TrainArrival> {
    if s == [] || a.minutesAway <= s[0].minutesAway then [a] + s
    else [s[0]] + InsertByMinutes(a, s[1..])
  }

  /** Putting an element no later than all of a sorted list in front keeps it sorted. */
  lemma SortedCons(x: TrainArrival, s: seq<TrainArrival>)
    requires SortedByMinutes(s) && AllAtLeast(x.minutesAway, s)
    ensures SortedByMinutes([x] + s)
  {
    var r := [x] + s;
    forall i, j | 0 <= i < j < |r| ensures r[i].minutesAway <= r[j].minutesAway {
      assert r[j] == s[j - 1];
      if i > 0 { assert r[i] == s[i - 1]; }
    }
  }

  lemma {:induction false} InsertByMinutesMultiset(a: TrainArrival, s: seq<TrainArrival>)
    ensures multiset(InsertByMinutes(a, s)) == multiset(s) + multiset{a}
  {
    if s != [] && a.minutesAway > s[0].minutesAway {
      InsertByMinutesMultiset(a, s[1..]);
      assert s == [s[0]] + s[1..];
    }
  }

  lemma {:induction false} InsertByMinutesProperties(a: TrainArrival, s: seq<TrainArrival>, lo: int)
    requires SortedByMinutes(s) && AllAtLeast(lo, s) && lo <= a.minutesAway
    ensures SortedByMinutes(InsertByMinutes(a, s))
    ensures AllAtLeast(lo, InsertByMinutes(a, s))
  {
    if s == [] || a.minutesAway <= s[0].minutesAway {
      assert AllAtLeast(a.minutesAway, s);
      SortedCons(a, s);
    } else {
      var tail := s[1..];
      assert SortedByMinutes(tail) && AllAtLeast(s[0].minutesAway, tail);
      InsertByMinutesProperties(a, tail, s[0].minutesAway);
      SortedCons(s[0], InsertByMinutes(a, tail));
    }
  }

  lemma InsertIntoSorted(a: TrainArrival, t: seq<TrainArrival>)
    requires SortedByMinutes(t)
    ensures SortedByMinutes(InsertByMinutes(a, t))
    ensures multiset(InsertByMinutes(a, t)) == multiset(t) + multiset{a}
  {
    var lo := if t == [] || a.minutesAway <= t[0].minutesAway then a.minutesAway else t[0].minutesAway;
    assert AllAtLeast(lo, t);
    InsertByMinutesProperties(a, t, lo);
    InsertByMinutesMultiset(a, t);
  }

  /** `sort((a, b) => a.minutesAway - b.minutesAway)`: a stable sort by minutes (see `SortByMinutesStable`). */
  function SortByMinutes(s: seq<TrainArrival>): (r: seq<TrainArrival>)
    ensures SortedByMinutes(r)
    ensures multiset(r) == multiset(s)
    ensures |r| == |s|
  {
    if s == [] then []
    else
      var t := SortByMinutes(s[1..]);
      InsertIntoSorted(s[0], t);
      assert multiset(s) == multiset(s[1..]) + multiset{s[0]} by {
        assert s == [s[0]] + s[1..];
      }
      InsertByMinutes(s[0], t)
  }

  /** The arrivals due in exactly `m` minutes. */
  function DueIn(m: int): TrainArrival -> bool {
    (a: TrainArrival) => a.minutesAway == m
  }

  /** Skipping past an earlier-due head does not reorder arrivals due at minute `m`. */
  lemma InsertByMinutesStableStep(a: TrainArrival, s: seq<TrainArrival>, m: int)
    requires s != [] && a.minutesAway > s[0].minutesAway
    requires Filter(DueIn(m), InsertByMinutes(a, s[1..])) == Filter(DueIn(m), [a] + s[1..])
    ensures Filter(DueIn(m), InsertByMinutes(a, s)) == Filter(DueIn(m), [a] + s)
  {
    var p := DueIn(m);
    var x, t := s[0], s[1..];
    assert InsertByMinutes(a, s) == [x] + InsertByMinutes(a, t);
    assert s == [x] + t;
    FilterCons(p, x, InsertByMinutes(a, t));
    FilterCons(p, x, [a] + t);
    FilterSwap(p, x, a, t);
  }

  /** Inserting never moves an element past one due at the same minute. */
  lemma {:induction false} InsertByMinutesStable(a: TrainArrival, s: seq<TrainArrival>, m: int)
    ensures Filter(DueIn(m), InsertByMinutes(a, s)) == Filter(DueIn(m), [a] + s)
  {
    if s != [] && a.minutesAway > s[0].minutesAway {
      InsertByMinutesStable(a, s[1..], m);
      InsertByMinutesStableStep(a, s, m);
    }
  }

  /**
   * The sort is stable: the arrivals due at any one minute come out in the
   * order they went in, which decides which of several tied trains survive
   * the cut to ten.
   */
  lemma {:induction false} SortByMinutesStable(s: seq<TrainArrival>, m: int)
    ensures Filter(DueIn(m), SortByMinutes(s)) == Filter(DueIn(m), s)
  {
    if s != [] {
      var t := SortByMinutes(s[1..]);
      SortByMinutesStable(s[1..], m);
      InsertByMinutesStable(s[0], t, m);
      FilterCons(DueIn(m), s[0], t);
      FilterCons(DueIn(m), s[0], s[1..]);
      assert s == [s[0]] + s[1..];
    }
  }

  function Take<T>(s: seq<T>, n: nat): (r: seq<T>)
    ensures |r| == if |s| < n then |s| else n
    ensures r == s[..|r|]
  {
    if |s| <= n then s else s[..n]
  }

  /** `parseStopTimes`: future trains only, soonest first, at most ten. */
  function ParseStopTimes(stopTimes: seq<StopTime>, nowMs: int): (r: seq<TrainArrival>)
  {
    Take(SortByMinutes(Arrivals(Filter(IsFuture, stopTimes), nowMs)), MaxArrivals)
  }

  /** The length is min(10, number of future stop times), and every minute count is non-negative. */
  lemma ParseStopTimesShape(stopTimes: seq<StopTime>, nowMs: int)
    ensures var future := Filter(IsFuture, stopTimes);
            var r := ParseStopTimes(stopTimes, nowMs);
            && |r| == (if |future| < MaxArrivals then |future| else MaxArrivals)
            && SortedByMinutes(r)
            && (forall i :: 0 <= i < |r| ==> r[i].minutesAway >= 0)
  {
    var all := Arrivals(Filter(IsFuture, stopTimes), nowMs);
    var sorted := SortByMinutes(all);
    var r := ParseStopTimes(stopTimes, nowMs);
    forall i | 0 <= i < |r| ensures r[i].minutesAway >= 0 {
      assert r[i] == sorted[i];
      assert sorted[i] in multiset(all);
      var k :| 0 <= k < |all| && all[k] == sorted[i];
    }
  }

  /**
   * The arrivals kept are drawn from the future stop times, and nothing
   * dropped is due sooner than the last train kept.
   */
  /** Cutting a sorted list after `n` elements drops nothing due sooner than the last one kept. */
  lemma TakeSortedKeepsSoonest(sorted: seq<TrainArrival>, n: nat)
    requires SortedByMinutes(sorted) && n > 0
    ensures var r := Take(sorted, n);
            && multiset(r) <= multiset(sorted)
            && (forall a :: a in multiset(sorted) - multiset(r) ==>
                  |r| > 0 && r[|r| - 1].minutesAway <= a.minutesAway)
  {
    var r := Take(sorted, n);
    var rest := sorted[|r|..];
    assert sorted == r + rest;
    assert multiset(sorted) == multiset(r) + multiset(rest);
    forall a | a in multiset(sorted) - multiset(r)
      ensures |r| > 0 && r[|r| - 1].minutesAway <= a.minutesAway
    {
      assert a in multiset(rest);
      var k :| 0 <= k < |rest| && rest[k] == a;
      assert sorted[|r| + k] == a;
      assert |r| == n;
      assert r[|r| - 1] == sorted[|r| - 1];
    }
  }

  lemma ParseStopTimesKeepsSoonest(stopTimes: seq<StopTime>, nowMs: int)
    ensures var all := Arrivals(Filter(IsFuture, stopTimes), nowMs);
            var r := ParseStopTimes(stopTimes, nowMs);
            && multiset(r) <= multiset(all)
            && (forall a :: a in multiset(all) - multiset(r) ==>
                  |r| > 0 && r[|r| - 1].minutesAway <= a.minutesAway)
  {
    var all := Arrivals(Filter(IsFuture, stopTimes), nowMs);
    var sorted := SortByMinutes(all);
    assert multiset(sorted) == multiset(all);
    TakeSortedKeepsSoonest(sorted, MaxArrivals);
  }


  // ---------------------------------------------------------------------
  // Routes and colours
  // ---------------------------------------------------------------------

  /** All routes of all service maps, in order (the two nested `forEach` loops). */
  function AllRoutes(serviceMaps: seq<ServiceMap>): seq<RouteRef> {
    if serviceMaps == [] then []
    else AllRoutes(serviceMaps[..|serviceMaps| - 1]) + serviceMaps[|serviceMaps| - 1].routes
  }

  function RouteIdOf(r: RouteRef): string { r.id }

  function SameId(id: string): string { id }

  /** `routeColors[route.id] = '#' + route.color` over a list: later routes overwrite earlier ones. */
  function ColorMap(routes: seq<RouteRef>): map<string, string> {
    if routes == [] then map[]
    else
      var last := routes[|routes| - 1];
      ColorMap(routes[..|routes| - 1])[last.id := "#" + last.color]
  }

  /** `routes[i]` is the last route carrying `id`. */
  ghost predicate IsLastWithId(routes: seq<RouteRef>, id: string, i: int) {
    0 <= i < |routes| && routes[i].id == id && forall j :: i < j < |routes| ==> routes[j].id != id
  }

  /** The colour map has one key per route id seen. */
  lemma {:induction false} ColorMapKeys(routes: seq<RouteRef>)
    ensures forall id :: id in ColorMap(routes) <==> exists i :: 0 <= i < |routes| && routes[i].id == id
  {
    if routes != [] {
      var n := |routes| - 1;
      var prefix := routes[..n];
      ColorMapKeys(prefix);
      forall id | id in ColorMap(routes) ensures exists i :: 0 <= i < |routes| && routes[i].id == id {
        if id != routes[n].id {
          assert id in ColorMap(prefix);
          var i :| 0 <= i < n && prefix[i].id == id;
          assert routes[i].id == id;
        }
      }
      forall id | exists i :: 0 <= i < |routes| && routes[i].id == id
        ensures id in ColorMap(routes)
      {
        var i :| 0 <= i < |routes| && routes[i].id == id;
        if i < n { assert prefix[i].id == id; }
      }
    }
  }

  /** Each key holds the colour of the LAST route with that id. */
  lemma {:induction false} ColorMapValues(routes: seq<RouteRef>)
    ensures forall id :: id in ColorMap(routes) ==>
              exists i :: IsLastWithId(routes, id, i) && ColorMap(routes)[id] == "#" + routes[i].color
  {
    if routes != [] {
      var n := |routes| - 1;
      var prefix := routes[..n];
      ColorMapValues(prefix);
      forall id | id in ColorMap(routes)
        ensures exists i :: IsLastWithId(routes, id, i) && ColorMap(routes)[id] == "#" + routes[i].color
      {
        if id == routes[n].id {
          assert IsLastWithId(routes, id, n);
        } else {
          assert id in ColorMap(prefix);
          var i :| IsLastWithId(prefix, id, i) && ColorMap(prefix)[id] == "#" + prefix[i].color;
          assert prefix[i] == routes[i];
          assert IsLastWithId(routes, id, i);
        }
      }
    }
  }

  /** The colour map has one key per route id, holding the colour of the LAST route with that id. */
  lemma ColorMapLastWins(routes: seq<RouteRef>)
    ensures forall id :: id in ColorMap(routes) <==> exists i :: 0 <= i < |routes| && routes[i].id == id
    ensures forall id :: id in ColorMap(routes) ==>
              exists i :: IsLastWithId(routes, id, i) && ColorMap(routes)[id] == "#" + routes[i].color
  {
    ColorMapKeys(routes);
    ColorMapValues(routes);
  }

  /** `Array.from(allRoutes)` for the insertion-ordered `Set` of route ids. */
  function RouteIds(serviceMaps: seq<ServiceMap>): seq<string> {
    DedupBy(KeysOf(AllRoutes(serviceMaps), RouteIdOf), SameId)
  }

  lemma KeysOfSnoc<T, K>(s: seq<T>, x: T, key: T -> K)
    ensures KeysOf(s + [x], key) == KeysOf(s, key) + [key(x)]
  {
  }

  lemma KeysOfSameId(s: seq<string>)
    ensures KeysOf(s, SameId) == s
  {
  }

  /** One route seen by the inner loop: its id is added if new, and its colour written. */
  lemma RouteStep(seen: seq<RouteRef>, route: RouteRef, ids: seq<string>)
    requires ids == DedupBy(KeysOf(seen, RouteIdOf), SameId)
    ensures (if route.id in ids then ids else ids + [route.id]) == DedupBy(KeysOf(seen + [route], RouteIdOf), SameId)
    ensures ColorMap(seen + [route]) == ColorMap(seen)[route.id := "#" + route.color]
  {
    KeysOfSnoc(seen, route, RouteIdOf);
    KeysOfSameId(ids);
    assert (KeysOf(seen, RouteIdOf) + [route.id])[..|seen|] == KeysOf(seen, RouteIdOf);
    assert (seen + [route])[..|seen|] == seen;
  }

  /** Extending the visited prefix by one element. */
  lemma SnocSlice<T>(before: seq<T>, s: seq<T>, j: int)
    requires 0 <= j < |s|
    ensures before + s[..j + 1] == before + s[..j] + [s[j]]
  {
    assert s[..j + 1] == s[..j] + [s[j]];
  }

  /** The routes of one more service map follow those of the maps before it. */
  lemma AllRoutesStep(serviceMaps: seq<ServiceMap>, i: int)
    requires 0 <= i < |serviceMaps|
    ensures AllRoutes(serviceMaps[..i + 1]) == AllRoutes(serviceMaps[..i]) + serviceMaps[i].routes
  {
    assert serviceMaps[..i + 1][..i] == serviceMaps[..i];
  }

  /**
   * The inner `forEach` of the route extraction: each route of one service
   * map adds its id to the insertion-ordered set if new and writes its
   * colour. `before` are the routes of the maps already visited.
   */
  method AddServiceMapRoutes(routes: seq<RouteRef>, ghost before: seq<RouteRef>,
                             ids: seq<string>, colors: map<string, string>)
    returns (ids': seq<string>, colors': map<string, string>)
    requires ids == DedupBy(KeysOf(before, RouteIdOf), SameId)
    requires colors == ColorMap(before)
    ensures ids' == DedupBy(KeysOf(before + routes, RouteIdOf), SameId)
    ensures colors' == ColorMap(before + routes)
  {
    ids', colors' := ids, colors;
    assert before + routes[..0] == before;
    for j := 0 to |routes|
      invariant ids' == DedupBy(KeysOf(before + routes[..j], RouteIdOf), SameId)
      invariant colors' == ColorMap(before + routes[..j])
    {
      var route := routes[j];
      RouteStep(before + routes[..j], route, ids');
      SnocSlice(before, routes, j);
      if route.id !in ids' {
        ids' := ids' + [route.id];
      }
      colors' := colors'[route.id := "#" + route.color];
    }
    assert routes[..|routes|] == routes;
  }

  /**
   * The route extraction of `getStationData`: the nested loops add each
   * route id to an insertion-ordered set and write its colour.
   */
  method ExtractRoutes(serviceMaps: seq<ServiceMap>) returns (routes: seq<string>, routeColors: map<string, string>)
    ensures routes == RouteIds(serviceMaps)
    ensures routeColors == ColorMap(AllRoutes(serviceMaps))
  {
    var allRoutes: seq<string> := [];
    routeColors := map[];
    for i := 0 to |serviceMaps|
      invariant allRoutes == DedupBy(KeysOf(AllRoutes(serviceMaps[..i]), RouteIdOf), SameId)
      invariant routeColors == ColorMap(AllRoutes(serviceMaps[..i]))
    {
      allRoutes, routeColors := AddServiceMapRoutes(serviceMaps[i].routes, AllRoutes(serviceMaps[..i]),
                                                    allRoutes, routeColors);
      AllRoutesStep(serviceMaps, i);
    }
    assert serviceMaps[..|serviceMaps|] == serviceMaps;
    routes := allRoutes;
  }

  /** The route list has no repeats, names exactly the ids of the service maps, and matches the colour map. */
  lemma RouteIdsProperties(serviceMaps: seq<ServiceMap>)
    ensures var ids := RouteIds(serviceMaps);
            && (forall i, j :: 0 <= i < j < |ids| ==> ids[i] != ids[j])
            && (forall id :: id in ids <==> id in ColorMap(AllRoutes(serviceMaps)))
  {
    var all := AllRoutes(serviceMaps);
    var keys := KeysOf(all, RouteIdOf);
    var ids := RouteIds(serviceMaps);
    DedupByProperties(keys, SameId);
    KeysOfSameId(ids);
    KeysOfSameId(keys);
    assert forall k :: HasKey(ids, SameId, k) <==> k in ids;
    assert forall k :: HasKey(keys, SameId, k) <==> k in keys;
    ColorMapLastWins(all);
    forall id | id in keys ensures exists i :: 0 <= i < |all| && all[i].id == id {
      var i :| 0 <= i < |keys| && keys[i] == id;
    }
    forall id | id in ColorMap(all) ensures id in keys {
      var i :| 0 <= i < |all| && all[i].id == id;
      assert keys[i] == id;
    }
  }

  // ---------------------------------------------------------------------
  // The whole record
  // ---------------------------------------------------------------------

  function ChildId(c: StopSummary): string { c.id }

  function TransferName(t: Transfer): string { t.toStop.name }

  /**
   * `d` is the station view of `stop` at time `nowMs`: every field of the
   * record is fixed, with an absent array giving an empty list or map.
   */
  predicate DescribesStop(d: EnhancedStationData, stop: TransiterStop, nowMs: int)
  {
    && d.id == stop.id && d.name == stop.name
    && d.coordinates == CoordinatesFrom(stop.latitude, stop.longitude)
    && (stop.serviceMaps.Some? ==>
          d.routes == RouteIds(stop.serviceMaps.value) && d.routeColors == ColorMap(AllRoutes(stop.serviceMaps.value)))
    && (stop.serviceMaps.None? ==> d.routes == [] && d.routeColors == map[])
    && (stop.childStops.Some? ==> d.platforms == KeysOf(stop.childStops.value, ChildId))
    && (stop.childStops.None? ==> d.platforms == [])
    && (stop.transfers.Some? ==> d.transfers == KeysOf(stop.transfers.value, TransferName))
    && (stop.transfers.None? ==> d.transfers == [])
    && d.realTimeArrivals == if stop.stopTimes.Some? then ParseStopTimes(stop.stopTimes.value, nowMs) else []
  }

  /** The station view of a stop is unique: `DescribesStop` fixes every field. */
  lemma DescribesStopUnique(d1: EnhancedStationData, d2: EnhancedStationData, stop: TransiterStop, nowMs: int)
    requires DescribesStop(d1, stop, nowMs) && DescribesStop(d2, stop, nowMs)
    ensures d1 == d2
  {
  }

  /** The extraction part of `getStationData`, from a fetched stop record. */
  method BuildStationData(stop: TransiterStop, nowMs: int) returns (d: EnhancedStationData)
    ensures DescribesStop(d, stop, nowMs)
  {
    d := EnhancedStationData(stop.id, stop.name, CoordinatesFrom(stop.latitude, stop.longitude), [], map[], [], [], []);
    if stop.serviceMaps.Some? {
      var routes, routeColors := ExtractRoutes(stop.serviceMaps.value);
      d := d.(routes := routes, routeColors := routeColors);
    }
    if stop.childStops.Some? {
      d := d.(platforms := KeysOf(stop.childStops.value, ChildId));
    }
    if stop.transfers.Some? {
      d := d.(transfers := KeysOf(stop.transfers.value, TransferName));
    }
    if stop.stopTimes.Some? && |stop.stopTimes.value| > 0 {
      d := d.(realTimeArrivals := ParseStopTimes(stop.stopTimes.value, nowMs));
    }
  }

  // ---------------------------------------------------------------------
  // The service object and its cache
  // ---------------------------------------------------------------------

  /** Five minutes, in milliseconds. */
  const StationCacheTimeout: int := 5 * 60 * 1000

  function StopEndpoint(stationId: string): string { "/stops/" + stationId }

  class TransiterStationService {
    var cache: map<string, Entry<TransiterStop>>

    constructor ()
      ensures cache == map[]
    {
      cache := map[];
    }

    /**
     * `fetchWithCache`: a fresh entry is served as it is; otherwise the
     * endpoint is fetched, and a successful answer is stored with the
     * current time while a failure leaves the cache alone and gives `null`.
     */
    method FetchWithCache(endpoint: string, now: int, fetch: string -> Option<TransiterStop>)
      returns (data: Option<TransiterStop>)
      modifies this
      ensures IsFresh(old(cache), endpoint, now, StationCacheTimeout) ==>
                data == Some(old(cache)[endpoint].data) && cache == old(cache)
      ensures !IsFresh(old(cache), endpoint, now, StationCacheTimeout) && fetch(endpoint).Some? ==>
                data == fetch(endpoint) && cache == old(cache)[endpoint := Entry(fetch(endpoint).value, now)]
      ensures !IsFresh(old(cache), endpoint, now, StationCacheTimeout) && fetch(endpoint).None? ==>
                data.None? && cache == old(cache)
      ensures data == Serve(old(cache), endpoint, now, StationCacheTimeout, fetch)
      ensures cache == Refresh(old(cache), endpoint, now, StationCacheTimeout, fetch)
    {
      if endpoint in cache && now - cache[endpoint].timestamp < StationCacheTimeout {
        return Some(cache[endpoint].data);
      }
      var response := fetch(endpoint);
      if response.None? {
        return None;
      }
      cache := cache[endpoint := Entry(response.value, now)];
      data := response;
    }

    /** `getStationData`: `null` when the stop cannot be fetched. */
    method GetStationData(stationId: string, now: int, fetch: string -> Option<TransiterStop>)
      returns (r: Option<EnhancedStationData>)
      modifies this
      ensures cache == Refresh(old(cache), StopEndpoint(stationId), now, StationCacheTimeout, fetch)
      ensures r.None? <==> Serve(old(cache), StopEndpoint(stationId), now, StationCacheTimeout, fetch).None?
      ensures r.Some? ==>
                DescribesStop(r.value, Serve(old(cache), StopEndpoint(stationId), now, StationCacheTimeout, fetch).value, now)
    {
      var stopData := FetchWithCache(StopEndpoint(stationId), now, fetch);
      if stopData.None? {
        return None;
      }
      var d := BuildStationData(stopData.value, now);
      r := Some(d);
    }

    method ClearCache()
      modifies this
      ensures cache == map[]
    {
      cache := map[];
    }
  }
}
